/**
 The stocked-items list page: the shared list reconciliation and the edit
 dialog, which stores a field whose key
 names a rate, stock, level or percentage as a number and any other field as
 the text typed.
 */
module ItemView {
  import opened JsValues
  import RecordList

  /** The ten keys the edit dialog offers, in its order. */
  const DialogKeys: seq<string> := ["item_name", "item_code", "minimum_level", "qty_per_packet",
                                    "purchase_rate", "sale_rate", "wholesale_rate",
                                    "sale_discount_percent", "opening_stock", "unit"]

  /** `w` occurs in `s` at position `i`. */
  predicate OccursAt(s: string, w: string, i: nat) {
    i + |w| <= |s| && s[i..i + |w|] == w
  }

  /** `s` agrees with `w` from position `i + j` on, for the rest of `w`. */
  predicate MatchAt(s: string, w: string, i: nat, j: nat)
    requires i + |w| <= |s| && j <= |w|
    decreases |w| - j
  {
    j == |w| || (s[i + j] == w[j] && MatchAt(s, w, i, j + 1))
  }

  /** `w` occurs in `s` at position `i` or later. */
  predicate IncludesFrom(s: string, w: string, i: nat)
    decreases |s| - i
  {
    i + |w| <= |s| && (MatchAt(s, w, i, 0) || IncludesFrom(s, w, i + 1))
  }

  /** `s.includes(w)` */
  predicate Includes(s: string, w: string) {
    IncludesFrom(s, w, 0)
  }

  lemma {:induction false} MatchAtIsSlice(s: string, w: string, i: nat, j: nat)
    requires i + |w| <= |s| && j <= |w|
    ensures MatchAt(s, w, i, j) <==> s[i + j..i + |w|] == w[j..]
    decreases |w| - j
  {
    if j < |w| {
      MatchAtIsSlice(s, w, i, j + 1);
      assert s[i + j..i + |w|] == [s[i + j]] + s[i + j + 1..i + |w|];
      assert w[j..] == [w[j]] + w[j + 1..];
    }
  }

  /** `includes` finds exactly the occurrences. */
  lemma {:induction false} IncludesFromOccurs(s: string, w: string, i: nat)
    ensures IncludesFrom(s, w, i) <==> exists k :: i <= k && OccursAt(s, w, k)
    decreases |s| - i
  {
    if i + |w| <= |s| {
      MatchAtIsSlice(s, w, i, 0);
      IncludesFromOccurs(s, w, i + 1);
      if MatchAt(s, w, i, 0) {
        assert OccursAt(s, w, i);
      }
      if exists k :: i <= k && OccursAt(s, w, k) {
        var k :| i <= k && OccursAt(s, w, k);
        assert k == i || i + 1 <= k;
      }
    }
  }

  /** An occurrence at `k` is found by a search from any `i <= k`. */
  lemma {:induction false} OccursIncluded(s: string, w: string, i: nat, k: nat)
    requires i <= k && OccursAt(s, w, k)
    ensures IncludesFrom(s, w, i)
    decreases k - i
  {
    if i < k {
      OccursIncluded(s, w, i + 1, k);
    } else {
      MatchAtIsSlice(s, w, i, 0);
    }
  }

  /** A word whose first letter does not occur in `s` is not included in it. */
  lemma {:induction false} FirstLetterAbsent(s: string, w: string, i: nat)
    requires |w| > 0 && w[0] !in s
    ensures !IncludesFrom(s, w, i)
    decreases |s| - i
  {
    if i + |w| <= |s| {
      assert s[i] != w[0];
      FirstLetterAbsent(s, w, i + 1);
    }
  }

  /** The keys the dialog stores as numbers. */
  predicate NumericKey(key: string) {
    Includes(key, "rate") || Includes(key, "stock") || Includes(key, "level") || Includes(key, "percent")
  }

  /** What a change event stores under `key`: `parseFloat(text) || 0` for a
      numeric key, the text itself otherwise. */
  function Coerce(key: string, text: string): (v: JsValue)
    ensures NumericKey(key) ==> v.Number? && v.n.Real?
    ensures NumericKey(key) && ParseFloat(text).Real? ==> v == Number(ParseFloat(text))
    ensures NumericKey(key) && ParseFloat(text).NaN? ==> v == Number(Real(0.0))
    ensures !NumericKey(key) ==> v == Str(text)
  {
    if NumericKey(key) then Number(Real(Or0(ParseFloat(text)))) else Str(text)
  }

  lemma NumericDialogKeys()
    ensures NumericKey("minimum_level") && NumericKey("purchase_rate") && NumericKey("sale_rate")
    ensures NumericKey("wholesale_rate") && NumericKey("sale_discount_percent") && NumericKey("opening_stock")
  {
    OccursIncluded("minimum_level", "level", 0, 8);
    OccursIncluded("purchase_rate", "rate", 0, 9);
    OccursIncluded("sale_rate", "rate", 0, 5);
    OccursIncluded("wholesale_rate", "rate", 0, 10);
    OccursIncluded("sale_discount_percent", "percent", 0, 14);
    OccursIncluded("opening_stock", "stock", 0, 8);
  }

  /** A key in which none of the four words' first letters occurs is text. */
  lemma NoNumericLetter(key: string)
    requires 'r' !in key && 's' !in key && 'l' !in key && 'p' !in key
    ensures !NumericKey(key)
  {
    FirstLetterAbsent(key, "rate", 0);
    FirstLetterAbsent(key, "stock", 0);
    FirstLetterAbsent(key, "level", 0);
    FirstLetterAbsent(key, "percent", 0);
  }

  /** The search skips positions holding anything but the word's first letter. */
  lemma {:induction false} SkipAbsent(s: string, w: string, i: nat, j: nat)
    requires |w| > 0 && i <= j <= |s| && w[0] !in s[i..j]
    ensures IncludesFrom(s, w, i) == IncludesFrom(s, w, j)
    decreases j - i
  {
    if i < j {
      assert s[i] == s[i..j][0];
      assert s[i + 1..j] == s[i..j][1..];
      SkipAbsent(s, w, i + 1, j);
    }
  }

  /** "qty_per_packet": its one "r" is followed by "_". */
  lemma QtyPerPacketHasNoRate()
    ensures !Includes("qty_per_packet", "rate")
  {
    var s := "qty_per_packet";
    SkipAbsent(s, "rate", 0, 6);
    assert !MatchAt(s, "rate", 6, 0) by { assert s[7] == '_'; }
    SkipAbsent(s, "rate", 7, 14);
  }

  /** "qty_per_packet": its "per" is followed by "_", its other "p" by "a". */
  lemma QtyPerPacketHasNoPercent()
    ensures !Includes("qty_per_packet", "percent")
  {
    var s := "qty_per_packet";
    SkipAbsent(s, "percent", 0, 4);
    assert !MatchAt(s, "percent", 4, 0) by { assert s[7] == '_'; }
    SkipAbsent(s, "percent", 5, 8);
    assert 8 + |"percent"| > |s|;
  }

  lemma QtyPerPacketIsText()
    ensures !NumericKey("qty_per_packet")
  {
    QtyPerPacketHasNoRate();
    QtyPerPacketHasNoPercent();
    FirstLetterAbsent("qty_per_packet", "stock", 0);
    FirstLetterAbsent("qty_per_packet", "level", 0);
  }

  lemma TextDialogKeys()
    ensures !NumericKey("item_name") && !NumericKey("item_code")
    ensures !NumericKey("qty_per_packet") && !NumericKey("unit")
  {
    NoNumericLetter("item_name");
    NoNumericLetter("item_code");
    NoNumericLetter("unit");
    QtyPerPacketIsText();
  }

  /** Of the ten dialog keys, six are stored as numbers; the item name, code,
      unit and the quantity per packet stay text. */
  lemma DialogKeyKinds()
    ensures forall i :: 0 <= i < |DialogKeys| ==> (NumericKey(DialogKeys[i]) <==> i in {2, 4, 5, 6, 7, 8})
  {
    NumericDialogKeys();
    TextDialogKeys();
  }

  /** A change event in the dialog, as the page handles it. */
  function EditField(v: RecordList.ListView, key: string, text: string): (r: RecordList.ListView)
    ensures r.data == v.data && r.open == v.open
    ensures r.selected.Some? && key in r.selected.value && r.selected.value[key] == Coerce(key, text)
  {
    RecordList.SetSelected(v, key, Coerce(key, text))
  }

  // ---------------------------------------------------------------------------
  // Typing into the dialog, keystroke by keystroke

  /** The value the dialog holds under `key` (`selectedRecord?.[key]`). */
  function Current(v: RecordList.ListView, key: string): JsValue {
    if v.selected.Some? then RecordList.Get(v.selected.value, key) else Undefined
  }

  /** The text the controlled input shows for a stored value (`value ?? ""`
      rendered as a string); None for numbers this model does not render. */
  function Shown(value: JsValue): Option<string> {
    match value
    case Undefined => Some("")
    case Null => Some("")
    case Bool(b) => Some(if b then "true" else "false")
    case Number(x) => NumberText(x)
    case Str(s) => Some(s)
  }

  /** Typing `c` at the end of the input: the change event carries the shown
      text plus `c`, and `edit` stores it. */
  function TypeChar(v: RecordList.ListView, key: string, c: char,
                    edit: (RecordList.ListView, string, string) -> RecordList.ListView): Option<RecordList.ListView> {
    match Shown(Current(v, key))
    case None => None
    case Some(text) => Some(edit(v, key, text + [c]))
  }

  /** Typing a whole string, one character after another. */
  function TypeText(v: RecordList.ListView, key: string, s: string,
                    edit: (RecordList.ListView, string, string) -> RecordList.ListView): Option<RecordList.ListView>
    decreases |s|
  {
    if s == [] then Some(v)
    else match TypeChar(v, key, s[0], edit)
      case None => None
      case Some(v') => TypeText(v', key, s[1..], edit)
  }

  /** One keystroke into a numeric field that holds a whole number `n`: the
      event carries the digits of `n` followed by `c`, and the field ends up
      holding what `parseFloat` makes of that. */
  lemma NumericKeystroke(v: RecordList.ListView, key: string, n: nat, c: char, x: real)
    requires NumericKey(key) && Current(v, key) == Number(Real(n as real))
    requires ParseFloat(RenderNat(n) + [c]) == Real(x)
    ensures TypeText(v, key, [c], EditField) == Some(EditField(v, key, RenderNat(n) + [c]))
    ensures Current(EditField(v, key, RenderNat(n) + [c]), key) == Number(Real(x))
  {
    assert Shown(Current(v, key)) == Some(RenderNat(n)) by {
      assert (n as real).Floor == n;
    }
    assert [c][1..] == [];
  }

  /** Typing a string is typing its first character and then the rest. */
  lemma TypeFirst(v: RecordList.ListView, key: string, s: string, text: string,
                  edit: (RecordList.ListView, string, string) -> RecordList.ListView)
    requires s != [] && Shown(Current(v, key)) == Some(text)
    ensures TypeText(v, key, s, edit) == TypeText(edit(v, key, text + [s[0]]), key, s[1..], edit)
  {
  }

  /** The digits of `10n + d` are those of `n` followed by `d`. */
  lemma RenderAppendDigit(n: nat, d: nat)
    requires 1 <= n && d < 10
    ensures RenderNat(10 * n + d) == RenderNat(n) + RenderNat(d)
  {
    assert (10 * n + d) / 10 == n && (10 * n + d) % 10 == d;
  }

  /** `parseFloat("1.5")` is 1.5. */
  lemma OneAndAHalf()
    ensures "1.5" == RenderNat(1) + "." + RenderNat(5)
    ensures ParseFloat("1.5") == Real(1.5)
  {
    assert RenderNat(1) == "1" && RenderNat(5) == "5";
    OneDecimalRoundTrip(1, 5);
  }

  /** As written, typing a digit `n`, a point and a digit `d` into a blank
      numeric field stores the whole number `10n + d`: after the point the
      field holds `n` again, shown without the point, so the point is lost. */
  lemma DecimalPointLost(v: RecordList.ListView, key: string, n: nat, d: nat)
    requires NumericKey(key) && Current(v, key) == Undefined
    requires 1 <= n < 10 && d < 10
    ensures var typed := TypeText(v, key, RenderNat(n) + "." + RenderNat(d), EditField);
            && typed.Some?
            && Current(typed.value, key) == Number(Real((10 * n + d) as real))
  {
    var one := RenderNat(n);
    var s := one + "." + RenderNat(d);
    assert |one| == 1 && |RenderNat(d)| == 1;
    RenderNatRoundTrip(n);
    var v1 := EditField(v, key, one);
    assert Current(v1, key) == Number(Real(n as real));
    assert s[0] == one[0] && s[1..] == "." + RenderNat(d) && "" + [one[0]] == one;
    TypeFirst(v, key, s, "", EditField);
    TrailingPointRoundTrip(n);
    NumericKeystroke(v1, key, n, '.', n as real);
    var v2 := EditField(v1, key, one + ".");
    assert TypeText(v1, key, s[1..], EditField) == TypeText(v2, key, RenderNat(d), EditField);
    RenderAppendDigit(n, d);
    RenderNatRoundTrip(10 * n + d);
    assert one + [RenderNat(d)[0]] == RenderNat(10 * n + d);
    assert [RenderNat(d)[0]] == RenderNat(d);
    NumericKeystroke(v2, key, n, RenderNat(d)[0], (10 * n + d) as real);
  }

  /** The instance: "1.5" typed into a blank purchase rate is stored as 15,
      although `parseFloat("1.5")` is 1.5. */
  lemma DecimalRateLost(v: RecordList.ListView)
    requires Current(v, "purchase_rate") == Undefined
    ensures ParseFloat("1.5") == Real(1.5)
    ensures TypeText(v, "purchase_rate", "1.5", EditField).Some?
    ensures Current(TypeText(v, "purchase_rate", "1.5", EditField).value, "purchase_rate") == Number(Real(15.0))
  {
    NumericDialogKeys();
    OneAndAHalf();
    DecimalPointLost(v, "purchase_rate", 1, 5);
  }

  /** Corrected save: the numeric keys are read from their text once, when the
      copy is saved. */
  function CoerceRecord(rec: RecordList.Record): (r: RecordList.Record)
    ensures r.Keys == rec.Keys
    ensures forall k :: k in rec && rec[k].Str? ==> r[k] == Coerce(k, rec[k].s)
    ensures forall k :: k in rec && !rec[k].Str? ==> r[k] == rec[k]
  {
    map k | k in rec :: if rec[k].Str? then Coerce(k, rec[k].s) else rec[k]
  }

  /** Corrected: typing any text into a field leaves exactly that text in
      the dialog, so the value saved is the reading of the whole text. */
  lemma {:induction false} TypedTextKept(v: RecordList.ListView, key: string, prefix: string, s: string)
    requires Current(v, key) == Str(prefix)
    ensures TypeText(v, key, s, RecordList.SetText).Some?
    ensures Current(TypeText(v, key, s, RecordList.SetText).value, key) == Str(prefix + s)
    decreases |s|
  {
    if s == [] {
      assert prefix + s == prefix;
    } else {
      var v' := RecordList.SetText(v, key, prefix + [s[0]]);
      assert TypeChar(v, key, s[0], RecordList.SetText) == Some(v');
      TypedTextKept(v', key, prefix + [s[0]], s[1..]);
      assert prefix + [s[0]] + s[1..] == prefix + s;
    }
  }

  /** Corrected: whatever number a numeric field's text reads as is the
      number saved. */
  lemma TypedNumberSaved(v: RecordList.ListView, key: string, s: string)
    requires NumericKey(key) && Current(v, key) == Str("") && ParseFloat(s).Real?
    ensures var typed := TypeText(v, key, s, RecordList.SetText);
            && typed.Some? && typed.value.selected.Some? && key in typed.value.selected.value
            && CoerceRecord(typed.value.selected.value)[key] == Number(ParseFloat(s))
  {
    TypedTextKept(v, key, "", s);
    assert "" + s == s;
  }

  /** Corrected: typing "1.5" into a blank rate field and saving stores 1.5. */
  lemma DecimalRateKept(v: RecordList.ListView)
    requires Current(v, "purchase_rate") == Str("")
    ensures var typed := TypeText(v, "purchase_rate", "1.5", RecordList.SetText);
            && typed.Some? && typed.value.selected.Some? && "purchase_rate" in typed.value.selected.value
            && CoerceRecord(typed.value.selected.value)["purchase_rate"] == Number(Real(1.5))
  {
    NumericDialogKeys();
    OneAndAHalf();
    TypedNumberSaved(v, "purchase_rate", "1.5");
  }
}
