/** The argument-unpacking specification of one generated function: the
    `PyArg_ParseTupleAndKeywords` format code, the keyword list, and how
    the argument parser reads the format code back. */
module FormatSpec {
  import opened Wrappers
  import opened Text
  import opened Signature

  /** Index of the first parameter whose name is in `__kwdefaults__`. */
  function FirstKwDefault(ps: seq<Param>): (r: Option<nat>)
    ensures r.Some? ==> r.value < |ps| && ps[r.value].inKwDefaults
    ensures r.Some? ==> forall j :: 0 <= j < r.value ==> !ps[j].inKwDefaults
    ensures r.None? <==> forall j :: 0 <= j < |ps| ==> !ps[j].inKwDefaults
    decreases |ps|
  {
    if ps == [] then None
    else if ps[0].inKwDefaults then Some(0)
    else
      match FirstKwDefault(ps[1..])
      case None => None
      case Some(k) => Some(k + 1)
  }

  /** Some parameter's name is in `__kwdefaults__`. */
  predicate HasKwDefault(ps: seq<Param>)
  {
    exists i :: 0 <= i < |ps| && ps[i].inKwDefaults
  }

  function Units(n: nat): string
  {
    seq(n, _ => 'O')
  }

  /** The format code before its terminator: one `O` per parameter, with
      the marker `|$` just before the unit of the first parameter that has
      a keyword default. */
  function FormatUnits(ps: seq<Param>): string
  {
    match FirstKwDefault(ps)
    case None => Units(|ps|)
    case Some(k) => Units(k) + "|$" + Units(|ps| - k)
  }

  /** The whole format code: the units, then `:` and the function name,
      which the parser uses in its error messages. */
  function FormatCode(ps: seq<Param>, funcName: string): string
  {
    FormatUnits(ps) + ":" + funcName
  }

  lemma {:induction false} FirstKwDefaultSnoc(ps: seq<Param>, p: Param)
    ensures FirstKwDefault(ps).Some? ==> FirstKwDefault(ps + [p]) == FirstKwDefault(ps)
    ensures FirstKwDefault(ps).None? && p.inKwDefaults ==> FirstKwDefault(ps + [p]) == Some(|ps|)
    ensures FirstKwDefault(ps).None? && !p.inKwDefaults ==> FirstKwDefault(ps + [p]).None?
    decreases |ps|
  {
    if ps == [] {
      assert ps + [p] == [p];
      assert [p][1..] == [];
    } else {
      var qs := ps + [p];
      assert qs[0] == ps[0];
      assert qs[1..] == ps[1..] + [p];
      FirstKwDefaultSnoc(ps[1..], p);
    }
  }

  lemma {:induction false} UnitsSnoc(n: nat)
    ensures Units(n) + "O" == Units(n + 1)
  {
  }

  /** Appending a parameter appends its unit, preceded by the marker when
      it is the first one with a keyword default; this is the step the
      generator's loop takes with its `has_default` flag. */
  lemma {:induction false} FormatUnitsSnoc(ps: seq<Param>, p: Param)
    ensures FirstKwDefault(ps).None? && p.inKwDefaults ==> FormatUnits(ps + [p]) == FormatUnits(ps) + "|$" + "O"
    ensures !(FirstKwDefault(ps).None? && p.inKwDefaults) ==> FormatUnits(ps + [p]) == FormatUnits(ps) + "O"
  {
    var qs := ps + [p];
    FirstKwDefaultSnoc(ps, p);
    match FirstKwDefault(ps)
    case Some(k) =>
      UnitsSnoc(|ps| - k);
      AppendAssoc(Units(k) + "|$", Units(|ps| - k), "O");
    case None =>
      if p.inKwDefaults {
        assert Units(1) == "O";
      } else {
        UnitsSnoc(|ps|);
      }
  }

  // ---------------------------------------------------------------------
  // Counting characters of the format code

  function Count(c: char, s: string): nat
    decreases |s|
  {
    if s == [] then 0 else (if s[0] == c then 1 else 0) + Count(c, s[1..])
  }

  lemma {:induction false} CountAppend(c: char, a: string, b: string)
    ensures Count(c, a + b) == Count(c, a) + Count(c, b)
    decreases |a|
  {
    if a == [] {
      assert a + b == b;
    } else {
      assert (a + b)[1..] == a[1..] + b;
      CountAppend(c, a[1..], b);
    }
  }

  lemma {:induction false} CountUnits(c: char, n: nat)
    ensures Count(c, Units(n)) == if c == 'O' then n else 0
    decreases n
  {
    if n > 0 {
      assert Units(n)[1..] == Units(n - 1);
      CountUnits(c, n - 1);
    }
  }

  /** The format code has exactly one `O` per parameter. */
  lemma {:induction false} UnitCount(ps: seq<Param>)
    ensures Count('O', FormatUnits(ps)) == |ps|
  {
    match FirstKwDefault(ps)
    case None => CountUnits('O', |ps|);
    case Some(k) =>
      CountAppend('O', Units(k) + "|$", Units(|ps| - k));
      CountAppend('O', Units(k), "|$");
      CountUnits('O', k);
      CountUnits('O', |ps| - k);
  }

  /** The marker `|$` appears once when some parameter is in
      `__kwdefaults__` and not at all otherwise. */
  lemma {:induction false} MarkerCount(ps: seq<Param>)
    ensures Count('|', FormatUnits(ps)) == (if HasKwDefault(ps) then 1 else 0)
    ensures Count('$', FormatUnits(ps)) == (if HasKwDefault(ps) then 1 else 0)
  {
    match FirstKwDefault(ps)
    case None =>
      CountUnits('|', |ps|);
      CountUnits('$', |ps|);
    case Some(k) =>
      assert HasKwDefault(ps) by { assert ps[k].inKwDefaults; }
      CountAppend('|', Units(k) + "|$", Units(|ps| - k));
      CountAppend('|', Units(k), "|$");
      CountAppend('$', Units(k) + "|$", Units(|ps| - k));
      CountAppend('$', Units(k), "|$");
      CountUnits('|', k);
      CountUnits('|', |ps| - k);
      CountUnits('$', k);
      CountUnits('$', |ps| - k);
  }

  // ---------------------------------------------------------------------
  // How the argument parser reads a format code

  /** What the parser makes of one `O` unit: whether the argument may be
      left out, and whether it can only be passed by keyword. */
  datatype Slot = Slot(optional: bool, keywordOnly: bool)

  /** The parser's reading of a format code made of `O`, `|` and `$`: `|`
      makes every later unit optional, `$` makes every later unit
      keyword-only, and `:` ends the units (the function name follows). */
  function Slots(code: string, optional: bool, keywordOnly: bool): seq<Slot>
    decreases |code|
  {
    if code == [] || code[0] == ':' then []
    else if code[0] == 'O' then [Slot(optional, keywordOnly)] + Slots(code[1..], optional, keywordOnly)
    else if code[0] == '|' then Slots(code[1..], true, keywordOnly)
    else if code[0] == '$' then Slots(code[1..], optional, true)
    else Slots(code[1..], optional, keywordOnly)
  }

  lemma {:induction false} SlotsAppend(a: string, b: string, optional: bool, keywordOnly: bool)
    requires ':' !in a
    requires forall i :: 0 <= i < |a| ==> a[i] == 'O'
    ensures Slots(a + b, optional, keywordOnly) == seq(|a|, _ => Slot(optional, keywordOnly)) + Slots(b, optional, keywordOnly)
    decreases |a|
  {
    if a == [] {
      assert a + b == b;
    } else {
      assert (a + b)[1..] == a[1..] + b;
      SlotsAppend(a[1..], b, optional, keywordOnly);
    }
  }

  /** The format code is its units, then the terminator. */
  lemma {:induction false} FormatCodeSplit(ps: seq<Param>, funcName: string)
    ensures FormatCode(ps, funcName) == FormatUnits(ps) + (":" + funcName)
  {
    AppendAssoc(FormatUnits(ps), ":", funcName);
  }

  /** The terminator ends the parser's reading. */
  lemma {:induction false} SlotsOfTerminator(funcName: string, optional: bool, keywordOnly: bool)
    ensures Slots(":" + funcName, optional, keywordOnly) == []
  {
    assert (":" + funcName)[0] == ':';
  }

  /** With no keyword default, every slot is required and positional. */
  lemma {:induction false} SlotsWithoutDefault(ps: seq<Param>, funcName: string)
    requires FirstKwDefault(ps).None?
    ensures Slots(FormatCode(ps, funcName), false, false) == seq(|ps|, _ => Slot(false, false))
  {
    var tail := ":" + funcName;
    FormatCodeSplit(ps, funcName);
    SlotsOfTerminator(funcName, false, false);
    SlotsAppend(Units(|ps|), tail, false, false);
    assert seq(|ps|, _ => Slot(false, false)) + [] == seq(|ps|, _ => Slot(false, false));
  }

  /** The marker makes the rest optional and keyword-only. */
  lemma {:induction false} SlotsOfMarker(rest: string)
    ensures Slots("|$" + rest, false, false) == Slots(rest, true, true)
  {
    var m := "|$" + rest;
    assert m[0] == '|' && m[1..] == "$" + rest;
    assert ("$" + rest)[0] == '$' && ("$" + rest)[1..] == rest;
  }

  /** With the first keyword default at `k`, the slots before it are required
      and positional, and it and every later slot optional and keyword-only. */
  lemma {:induction false} SlotsWithDefault(ps: seq<Param>, funcName: string, k: nat)
    requires FirstKwDefault(ps) == Some(k)
    ensures Slots(FormatCode(ps, funcName), false, false)
      == seq(k, _ => Slot(false, false)) + seq(|ps| - k, _ => Slot(true, true))
  {
    var tail := ":" + funcName;
    var u1, u2 := Units(k), Units(|ps| - k);
    FormatCodeSplit(ps, funcName);
    AppendAssoc(u1 + "|$", u2, tail);
    AppendAssoc(u1, "|$", u2 + tail);
    SlotsAppend(u1, "|$" + (u2 + tail), false, false);
    SlotsOfMarker(u2 + tail);
    SlotsAppend(u2, tail, true, true);
    SlotsOfTerminator(funcName, true, true);
    assert seq(|ps| - k, _ => Slot(true, true)) + [] == seq(|ps| - k, _ => Slot(true, true));
  }

  /** The parser reads one slot per parameter; a slot is optional and
      keyword-only exactly when that parameter or an earlier one is in
      `__kwdefaults__` (so a parameter after the first defaulted one is
      optional even without a default of its own). */
  lemma {:induction false} SlotsOfFormatCode(ps: seq<Param>, funcName: string)
    ensures |Slots(FormatCode(ps, funcName), false, false)| == |ps|
    ensures forall i :: 0 <= i < |ps| ==>
      var s := Slots(FormatCode(ps, funcName), false, false)[i];
      (s.optional <==> exists j :: 0 <= j <= i && ps[j].inKwDefaults) && s.keywordOnly == s.optional
  {
    var slots := Slots(FormatCode(ps, funcName), false, false);
    match FirstKwDefault(ps)
    case None =>
      SlotsWithoutDefault(ps, funcName);
    case Some(k) =>
      SlotsWithDefault(ps, funcName, k);
      forall i | 0 <= i < |ps|
        ensures slots[i].optional <==> exists j :: 0 <= j <= i && ps[j].inKwDefaults
      {
        if i < k {
          assert !slots[i].optional;
        } else {
          assert slots[i].optional && ps[k].inKwDefaults;
        }
      }
  }

  /** Every parameter whose local starts as `Py_None` is optional to the
      parser, so that initial value is what the body sees when the caller
      leaves the argument out. */
  lemma {:induction false} DefaultedParamsAreOptional(ps: seq<Param>, funcName: string, i: nat)
    requires i < |ps| && ps[i].inKwDefaults
    ensures i < |Slots(FormatCode(ps, funcName), false, false)|
    ensures Slots(FormatCode(ps, funcName), false, false)[i].optional
  {
    SlotsOfFormatCode(ps, funcName);
  }

  // ---------------------------------------------------------------------
  // The keyword list

  /** The keyword-list entry of one parameter: empty for a positional-only
      parameter, its name for every other kind (variadic ones included). */
  function KwName(p: Param): string
  {
    if p.kind == PositionalOnly then "" else p.name
  }

  function KwList(ps: seq<Param>): seq<string>
  {
    seq(|ps|, i requires 0 <= i < |ps| => KwName(ps[i]))
  }

  /** With proper (non-empty) names, a keyword-list entry is empty exactly
      for the positional-only parameters, and otherwise the parameter's own
      name, at the parameter's own position. */
  lemma {:induction false} KwListEntries(ps: seq<Param>)
    requires forall i :: 0 <= i < |ps| ==> ps[i].name != ""
    ensures |KwList(ps)| == |ps|
    ensures forall i :: 0 <= i < |ps| ==> (KwList(ps)[i] == "" <==> ps[i].kind == PositionalOnly)
    ensures forall i :: 0 <= i < |ps| && ps[i].kind != PositionalOnly ==> KwList(ps)[i] == ps[i].name
  {
  }

  /** A non-empty keyword is in the list exactly when some parameter that
      is not positional-only carries that name. */
  lemma {:induction false} KeywordAccepted(ps: seq<Param>, kw: string)
    requires kw != ""
    ensures kw in KwList(ps) <==> exists i :: 0 <= i < |ps| && ps[i].kind != PositionalOnly && ps[i].name == kw
  {
    if kw in KwList(ps) {
      var i :| 0 <= i < |ps| && KwList(ps)[i] == kw;
      assert ps[i].kind != PositionalOnly && ps[i].name == kw;
    }
    if exists i :: 0 <= i < |ps| && ps[i].kind != PositionalOnly && ps[i].name == kw {
      var i :| 0 <= i < |ps| && ps[i].kind != PositionalOnly && ps[i].name == kw;
      assert KwList(ps)[i] == kw;
    }
  }

  lemma {:induction false} KwListSnoc(ps: seq<Param>, p: Param)
    ensures KwList(ps + [p]) == KwList(ps) + [KwName(p)]
  {
    var qs := ps + [p];
    assert forall i :: 0 <= i < |ps| ==> qs[i] == ps[i];
  }
}
