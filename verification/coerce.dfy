/** The input coercions the ClickUp nodes share: reading tokens and identifiers, the two
    comma-separated list parsers (`parseIds`/`parseAssignees` and `parseTags`), the two
    variants of `toMs`, the priority whitelist and the due-date fields. */
module Coerce {
  import opened Wrappers
  import opened Text
  import opened Js

  /** The error `s.trim()` throws when `s` is not a string. */
  const TrimNotAFunction := "TypeError: trim is not a function"

  /** `String(v ?? "")`: how the token is read. */
  function StringOr(v: Value): string {
    if Nullish(v) then "" else ToStr(v.value)
  }

  /** `String(v ?? "").trim()`: how every identifier (list, task, team, timer) is read. It
      is empty exactly when the input is missing or prints as white space, and otherwise
      neither starts nor ends with white space. */
  function IdInput(v: Value): (r: string)
    ensures r == "" <==> Nullish(v) || Blank(ToStr(v.value))
    ensures r != "" ==> !IsJsSpace(r[0]) && !IsJsSpace(r[|r| - 1])
    ensures v.Some? && v.value.Str? && !Blank(v.value.s) ==> TrimmedFrom(v.value.s, r)
  {
    TrimRemovesEnds(StringOr(v));
    Trim(StringOr(v))
  }

  /** A string with something other than white space in it. */
  predicate NonBlankString(v: Value) {
    v.Some? && v.value.Str? && !Blank(v.value.s)
  }

  /** `!s || !s.trim()` throws exactly when `s` is truthy but not a string. */
  predicate TrimThrows(v: Value) {
    Truthy(v) && !v.value.Str?
  }

  /** `tokens.map(x => Number(String(x).trim())).filter(Number.isFinite)`: the finite
      numbers the tokens spell, in token order. */
  function FiniteNumbers(rt: Builtins, tokens: seq<string>): (r: seq<int>)
    ensures |r| <= |tokens|
    ensures |r| == |tokens| <==> forall i | 0 <= i < |tokens| :: rt.number(Trim(tokens[i])).Some?
  {
    if |tokens| == 0 then []
    else
      var rest := FiniteNumbers(rt, tokens[1..]);
      assert forall i | 0 <= i < |tokens| - 1 :: tokens[1..][i] == tokens[i + 1];
      match rt.number(Trim(tokens[0]))
      case Some(n) => [n] + rest
      case None => rest
  }

  /** The numbers of a concatenation are those of each part, in order: so the kept numbers
      follow their tokens' order, repeats included, whatever tokens are dropped between. */
  lemma {:induction false} FiniteNumbersAppend(rt: Builtins, a: seq<string>, b: seq<string>)
    ensures FiniteNumbers(rt, a + b) == FiniteNumbers(rt, a) + FiniteNumbers(rt, b)
  {
    if |a| > 0 {
      assert (a + b)[0] == a[0];
      assert (a + b)[1..] == a[1..] + b;
      FiniteNumbersAppend(rt, a[1..], b);
    } else {
      assert a + b == b;
    }
  }

  /** A number is among the finite numbers exactly when some token spells it. */
  lemma {:induction false} FiniteNumbersMembers(rt: Builtins, tokens: seq<string>, n: int)
    ensures n in FiniteNumbers(rt, tokens) <==> exists i | 0 <= i < |tokens| :: rt.number(Trim(tokens[i])) == Some(n)
  {
    if |tokens| > 0 {
      FiniteNumbersMembers(rt, tokens[1..], n);
      if exists i | 1 <= i < |tokens| :: rt.number(Trim(tokens[i])) == Some(n) {
        var i :| 1 <= i < |tokens| && rt.number(Trim(tokens[i])) == Some(n);
        assert tokens[1..][i - 1] == tokens[i];
      }
      if exists i | 0 <= i < |tokens[1..]| :: rt.number(Trim(tokens[1..][i])) == Some(n) {
        var i :| 0 <= i < |tokens[1..]| && rt.number(Trim(tokens[1..][i])) == Some(n);
        assert tokens[1..][i] == tokens[i + 1];
      }
    }
  }

  /** `parseAssignees` (create task) and `parseIds` (update task): `undefined` for a falsy or
      blank input, a TypeError for any other non-string, and otherwise the finite numbers among
      the comma-separated tokens, possibly none. */
  function ParseIds(rt: Builtins, v: Value): (r: Result<Option<seq<int>>>)
    ensures r.Throw? <==> TrimThrows(v)
    ensures r.Ok? ==> (r.value.Some? <==> NonBlankString(v))
    ensures r.Ok? && r.value.Some? ==> r.value.value == FiniteNumbers(rt, Split(v.value.s, ','))
  {
    if !Truthy(v) then Ok(None)
    else if !v.value.Str? then Throw(TrimNotAFunction)
    else if Trim(v.value.s) == "" then Ok(None)
    else Ok(Some(FiniteNumbers(rt, Split(v.value.s, ','))))
  }

  /** A string with something besides white space in it is parsed token by token. */
  lemma ParseIdsOfText(rt: Builtins, s: string)
    requires !Blank(s)
    ensures ParseIds(rt, Some(Str(s))) == Ok(Some(FiniteNumbers(rt, Split(s, ','))))
  {
    assert s != "";
  }

  /** The decimal numerals of a list of natural numbers, in order. */
  function Decimals(ids: seq<nat>): (r: seq<string>)
    ensures |r| == |ids|
    ensures forall i | 0 <= i < |r| :: AllDigits(r[i]) && DecimalValue(r[i]) == ids[i]
  {
    if |ids| == 0 then [] else [NatToDecimal(ids[0])] + Decimals(ids[1..])
  }

  /** A digit run has no white space at either end, so trimming leaves it as it is. */
  lemma TrimDigits(s: string)
    requires AllDigits(s)
    ensures Trim(s) == s
  {
    assert !IsJsSpace(s[0]) && !IsJsSpace(s[|s| - 1]);
  }

  /** `Number` reads a numeral back as its number. */
  lemma NumberOfNumeral(rt: Builtins, n: nat)
    requires Faithful(rt) && n <= MaxSafeInteger
    ensures rt.number(Trim(NatToDecimal(n))) == Some(n)
  {
    var d := NatToDecimal(n);
    TrimDigits(d);
    NumberOfDigits(rt, d);
  }

  /** Ids that `Number` reads exactly: none above `Number.MAX_SAFE_INTEGER`. */
  predicate SafeIds(ids: seq<nat>) {
    forall i | 0 <= i < |ids| :: ids[i] <= MaxSafeInteger
  }

  /** The finite numbers of a list of safe numerals are the numbers they spell. */
  lemma {:induction false} FiniteNumbersOfDecimals(rt: Builtins, ids: seq<nat>)
    requires Faithful(rt) && SafeIds(ids)
    ensures FiniteNumbers(rt, Decimals(ids)) == ids
  {
    if |ids| > 0 {
      var ds := Decimals(ids);
      NumberOfNumeral(rt, ids[0]);
      assert ds[1..] == Decimals(ids[1..]);
      FiniteNumbersOfDecimals(rt, ids[1..]);
      assert [ids[0]] + ids[1..] == ids;
    }
  }

  /** `parseIds` on a comma-separated list of user ids reads each numeral by itself, and when
      `Number` reads safe integers exactly it gives the ids back, in order. Above
      `Number.MAX_SAFE_INTEGER` an id comes back as whatever `Number` makes of its numeral. */
  lemma ParseIdsOfJoin(rt: Builtins, ids: seq<nat>)
    requires |ids| > 0
    ensures ParseIds(rt, Some(Str(Join(Decimals(ids), ',')))) == Ok(Some(FiniteNumbers(rt, Decimals(ids))))
    ensures Faithful(rt) && SafeIds(ids) ==> ParseIds(rt, Some(Str(Join(Decimals(ids), ',')))) == Ok(Some(ids))
  {
    var ds := Decimals(ids);
    var csv := Join(ds, ',');
    JoinHead(ds, ',');
    assert !Blank(csv) by {
      assert csv[0] == ds[0][0] && IsDigit(ds[0][0]);
    }
    assert forall i | 0 <= i < |ds| :: ',' !in ds[i] by {
      forall i | 0 <= i < |ds| ensures ',' !in ds[i] {
        assert AllDigits(ds[i]);
      }
    }
    SplitJoin(ds, ',');
    if Faithful(rt) && SafeIds(ids) {
      FiniteNumbersOfDecimals(rt, ids);
    }
    ParseIdsOfText(rt, csv);
  }

  /** An empty token between two commas reads as 0, because `Number("")` is 0. */
  lemma EmptyTokenIsZero(rt: Builtins)
    requires Faithful(rt)
    ensures ParseIds(rt, Some(Str("1,,2"))) == Ok(Some([1, 0, 2]))
  {
    var s := "1,,2";
    assert !Blank(s) by { assert !IsJsSpace(s[0]); }
    ParseIdsOfText(rt, s);
    SplitOneEmptyTwo();
    FiniteNumbersOneEmptyTwo(rt);
  }

  lemma SplitOneEmptyTwo()
    ensures Split("1,,2", ',') == ["1", "", "2"]
  {
    SplitConcat("", "2", ',');
    assert "" + [','] + "2" == ",2";
    SplitConcat("1", ",2", ',');
    assert "1" + [','] + ",2" == "1,,2";
    assert Split("", ',') == [""];
    assert Split("1", ',') == ["1"];
    assert Split("2", ',') == ["2"];
  }

  lemma FiniteNumbersOneEmptyTwo(rt: Builtins)
    requires Faithful(rt)
    ensures FiniteNumbers(rt, ["1", "", "2"]) == [1, 0, 2]
  {
    assert rt.number(Trim("1")) == Some(1) by {
      TrimDigits("1");
      NumberOfDigits(rt, "1");
    }
    assert rt.number(Trim("")) == Some(0) by {
      NumberOfBlank(rt, Trim(""));
    }
    assert rt.number(Trim("2")) == Some(2) by {
      TrimDigits("2");
      NumberOfDigits(rt, "2");
    }
    var tokens: seq<string> := ["1", "", "2"];
    assert tokens[1..] == ["", "2"] && tokens[1..][1..] == ["2"];
    assert FiniteNumbers(rt, ["2"]) == [2];
    assert FiniteNumbers(rt, ["", "2"]) == [0, 2];
  }

  /** A tag as `parseTags` keeps it: non-empty, trimmed, free of commas. */
  predicate CanonicalTag(t: string) {
    t != "" && Trim(t) == t && ',' !in t
  }

  /** Trimming only removes characters. */
  lemma TrimKeepsOut(s: string, c: char)
    requires c !in s
    ensures c !in Trim(s)
  {
    var r := Trim(s);
    var i := TrimOffset(s);
    assert forall j | 0 <= j < |r| :: r[j] == s[i..i + |r|][j];
  }

  /** `pieces.map(t => t.trim()).filter(Boolean)`. */
  function NonEmptyTrimmed(pieces: seq<string>): (r: seq<string>)
    requires forall i | 0 <= i < |pieces| :: ',' !in pieces[i]
    ensures |r| <= |pieces|
    ensures forall i | 0 <= i < |r| :: CanonicalTag(r[i])
  {
    if |pieces| == 0 then []
    else
      assert forall i | 0 <= i < |pieces| - 1 :: pieces[1..][i] == pieces[i + 1];
      var rest := NonEmptyTrimmed(pieces[1..]);
      var t := Trim(pieces[0]);
      if t == "" then rest
      else
        TrimIdempotent(pieces[0]);
        TrimKeepsOut(pieces[0], ',');
        [t] + rest
  }

  /** Trimming and dropping the empty pieces leaves nothing exactly when every piece is blank. */
  lemma {:induction false} NonEmptyTrimmedIsEmpty(pieces: seq<string>)
    requires forall i | 0 <= i < |pieces| :: ',' !in pieces[i]
    ensures NonEmptyTrimmed(pieces) == [] <==> forall i | 0 <= i < |pieces| :: Blank(pieces[i])
  {
    if |pieces| > 0 {
      assert forall i | 0 <= i < |pieces| - 1 :: pieces[1..][i] == pieces[i + 1];
      NonEmptyTrimmedIsEmpty(pieces[1..]);
    }
  }

  /** A tag is kept exactly when it is the non-empty trim of some piece. */
  lemma {:induction false} NonEmptyTrimmedMembers(pieces: seq<string>, t: string)
    requires forall i | 0 <= i < |pieces| :: ',' !in pieces[i]
    ensures t in NonEmptyTrimmed(pieces) <==> t != "" && exists i | 0 <= i < |pieces| :: Trim(pieces[i]) == t
  {
    if |pieces| > 0 {
      var rest := pieces[1..];
      assert forall i | 0 <= i < |rest| :: rest[i] == pieces[i + 1];
      NonEmptyTrimmedMembers(rest, t);
      if exists i | 1 <= i < |pieces| :: Trim(pieces[i]) == t {
        var i :| 1 <= i < |pieces| && Trim(pieces[i]) == t;
        assert Trim(rest[i - 1]) == t;
      }
    }
  }

  /** The tags keep the order of the pieces: the pieces of `a` then `b` give the tags of `a`
      then those of `b`. */
  lemma {:induction false} NonEmptyTrimmedAppend(a: seq<string>, b: seq<string>)
    requires forall i | 0 <= i < |a| :: ',' !in a[i]
    requires forall i | 0 <= i < |b| :: ',' !in b[i]
    ensures forall i | 0 <= i < |a + b| :: ',' !in (a + b)[i]
    ensures NonEmptyTrimmed(a + b) == NonEmptyTrimmed(a) + NonEmptyTrimmed(b)
  {
    assert forall i | 0 <= i < |a + b| :: (a + b)[i] == if i < |a| then a[i] else b[i - |a|];
    if |a| == 0 {
      assert a + b == b;
    } else {
      assert (a + b)[0] == a[0];
      assert (a + b)[1..] == a[1..] + b;
      assert forall i | 0 <= i < |a| - 1 :: a[1..][i] == a[i + 1];
      NonEmptyTrimmedAppend(a[1..], b);
    }
  }

  /** `parseTags`: `undefined` for `undefined`, `null` or a blank string, a TypeError for any
      other non-string, and otherwise the comma-separated pieces trimmed, empty ones dropped. */
  function ParseTags(v: Value): (r: Result<Option<seq<string>>>)
    ensures r.Throw? <==> !Nullish(v) && !v.value.Str?
    ensures r.Ok? ==> (r.value.Some? <==> NonBlankString(v))
    ensures r.Ok? && r.value.Some? ==> forall i | 0 <= i < |r.value.value| :: CanonicalTag(r.value.value[i])
  {
    if Nullish(v) then Ok(None)
    else if !v.value.Str? then Throw(TrimNotAFunction)
    else if Trim(v.value.s) == "" then Ok(None)
    else Ok(Some(NonEmptyTrimmed(Split(v.value.s, ','))))
  }

  /** `parseTags` reads back a comma-joined list of canonical tags. */
  lemma {:induction false} NonEmptyTrimmedOfCanonical(tags: seq<string>)
    requires forall i | 0 <= i < |tags| :: CanonicalTag(tags[i])
    ensures forall i | 0 <= i < |tags| :: ',' !in tags[i]
    ensures NonEmptyTrimmed(tags) == tags
  {
    if |tags| > 0 {
      NonEmptyTrimmedOfCanonical(tags[1..]);
      assert [tags[0]] + tags[1..] == tags;
    }
  }

  /** Tags joined with commas come back from `parseTags` unchanged. */
  lemma ParseTagsOfJoin(tags: seq<string>)
    requires |tags| > 0 && forall i | 0 <= i < |tags| :: CanonicalTag(tags[i])
    ensures ParseTags(Some(Str(Join(tags, ',')))) == Ok(Some(tags))
  {
    var csv := Join(tags, ',');
    JoinHead(tags, ',');
    assert !Blank(csv) by {
      assert Trim(tags[0]) == tags[0];
      assert csv[0] == tags[0][0] && !IsJsSpace(tags[0][0]);
    }
    NonEmptyTrimmedOfCanonical(tags);
    SplitJoin(tags, ',');
  }

  /** The tags of a string with something besides white space in it are exactly the
      non-empty trims of its comma-separated pieces. */
  lemma ParseTagsMembers(s: string, t: string)
    requires !Blank(s)
    ensures ParseTags(Some(Str(s))).Ok? && ParseTags(Some(Str(s))).value.Some?
    ensures t in ParseTags(Some(Str(s))).value.value <==>
      t != "" && exists i | 0 <= i < |Split(s, ',')| :: Trim(Split(s, ',')[i]) == t
  {
    NonEmptyTrimmedMembers(Split(s, ','), t);
  }

  /** White space around a tag and empty pieces go: `" a , ,b"` gives `["a", "b"]`. */
  lemma ParseTagsOfPadded()
    ensures ParseTags(Some(Str(" a , ,b"))) == Ok(Some(["a", "b"]))
  {
    var s := " a , ,b";
    assert !Blank(s) by { assert !IsJsSpace(s[1]); }
    SplitPadded();
    NonEmptyTrimmedPadded();
  }

  lemma NonEmptyTrimmedPadded()
    ensures NonEmptyTrimmed([" a ", " ", "b"]) == ["a", "b"]
  {
    assert Trim(" a ") == "a" by {
      assert " a "[1..] == "a ";
      assert "a "[..1] == "a";
    }
    assert Trim(" ") == "" by { assert " "[1..] == ""; }
    assert Trim("b") == "b";
    var a, b, c := NonEmptyTrimmed([" a "]), NonEmptyTrimmed([" "]), NonEmptyTrimmed(["b"]);
    assert a == ["a"] by { assert [" a "][1..] == []; }
    assert b == [] by { assert [" "][1..] == []; }
    assert c == ["b"] by { assert ["b"][1..] == []; }
    NonEmptyTrimmedAppend([" "], ["b"]);
    assert [" "] + ["b"] == [" ", "b"];
    NonEmptyTrimmedAppend([" a "], [" ", "b"]);
    assert [" a "] + [" ", "b"] == [" a ", " ", "b"];
  }

  lemma SplitPadded()
    ensures Split(" a , ,b", ',') == [" a ", " ", "b"]
  {
    SplitConcat(" ", "b", ',');
    assert " " + [','] + "b" == " ,b";
    SplitConcat(" a ", " ,b", ',');
    assert " a " + [','] + " ,b" == " a , ,b";
    assert Split(" a ", ',') == [" a "];
    assert Split(" ", ',') == [" "];
    assert Split("b", ',') == ["b"];
  }

  /** `toMs` of the task nodes: `undefined` for a falsy or blank input, a TypeError for any
      other non-string, and otherwise `Number(s)` when finite, else `Date.parse(s)`, both on the
      untrimmed string. */
  function DueMs(rt: Builtins, v: Value): (r: Result<Option<int>>)
    ensures r.Throw? <==> TrimThrows(v)
    ensures r.Ok? && r.value.Some? ==> NonBlankString(v)
    ensures NonBlankString(v) && rt.number(v.value.s).Some? ==> r == Ok(rt.number(v.value.s))
    ensures NonBlankString(v) && rt.number(v.value.s).None? ==> r == Ok(rt.dateParse(v.value.s))
  {
    if !Truthy(v) then Ok(None)
    else if !v.value.Str? then Throw(TrimNotAFunction)
    else if Trim(v.value.s) == "" then Ok(None)
    else
      var n := rt.number(v.value.s);
      if n.Some? then Ok(n) else Ok(rt.dateParse(v.value.s))
  }

  /** `toMs` of the time-entry nodes: `undefined` for `undefined`, `null` or a blank string; a
      number as it is; otherwise the trimmed `String(v)` read by `Number` when finite, else by
      `Date.parse`. It never throws. */
  function TimeMs(rt: Builtins, v: Value): (r: Option<int>)
    ensures Nullish(v) ==> r == None
    ensures v.Some? && v.value.Num? ==> r == Some(v.value.n)
    ensures !Nullish(v) && !v.value.Num? ==>
      var s := Trim(ToStr(v.value));
      && (s == "" ==> r == None)
      && (s != "" && rt.number(s).Some? ==> r == rt.number(s))
      && (s != "" && rt.number(s).None? ==> r == rt.dateParse(s))
  {
    if Nullish(v) then None
    else if v.value.Num? then Some(v.value.n)
    else
      var s := Trim(ToStr(v.value));
      if s == "" then None
      else if rt.number(s).Some? then rt.number(s)
      else rt.dateParse(s)
  }

  /** A decimal timestamp never throws in the task variant of `toMs` and is read by `Number`
      first; a safe integer is read as that many milliseconds. */
  lemma DueMsOfDigits(rt: Builtins, s: string)
    requires AllDigits(s)
    ensures DueMs(rt, Some(Str(s))).Ok?
    ensures rt.number(s).Some? ==> DueMs(rt, Some(Str(s))) == Ok(rt.number(s))
    ensures Faithful(rt) && DecimalValue(s) <= MaxSafeInteger ==> DueMs(rt, Some(Str(s))) == Ok(Some(DecimalValue(s)))
  {
    TrimDigits(s);
    assert !Blank(s) by { assert !IsJsSpace(s[0]); }
    if Faithful(rt) && DecimalValue(s) <= MaxSafeInteger {
      NumberOfDigits(rt, s);
    }
  }

  /** The same holds for the time-entry variant, white space around the digits allowed. */
  lemma TimeMsOfDigits(rt: Builtins, s: string)
    requires AllDigits(Trim(s))
    ensures rt.number(Trim(s)).Some? ==> TimeMs(rt, Some(Str(s))) == rt.number(Trim(s))
    ensures Faithful(rt) && DecimalValue(Trim(s)) <= MaxSafeInteger ==> TimeMs(rt, Some(Str(s))) == Some(DecimalValue(Trim(s)))
  {
    TrimIdempotent(s);
    assert Trim(s) != "";
    if Faithful(rt) && DecimalValue(Trim(s)) <= MaxSafeInteger {
      NumberOfDigits(rt, Trim(s));
    }
  }

  /** On a string without surrounding white space the two `toMs` variants agree. */
  lemma ToMsVariantsAgree(rt: Builtins, s: string)
    requires Trim(s) == s
    ensures DueMs(rt, Some(Str(s))) == Ok(TimeMs(rt, Some(Str(s))))
  {
  }

  /** The priority the task nodes send: present exactly for the numbers 1 to 4
      (`priority && [1,2,3,4].includes(priority)`), so 0, 5 and the string "2" are dropped. */
  function Priority(v: Value): (r: Value)
    ensures r.Some? <==> v in {Some(Num(1)), Some(Num(2)), Some(Num(3)), Some(Num(4))}
    ensures r.Some? ==> r == v
  {
    if v.Some? && v.value.Num? && 1 <= v.value.n <= 4 then v else None
  }

  /** A parsed id list as a body value: present only when it holds at least one id. */
  function IdList(ids: Option<seq<int>>): (r: Value)
    ensures r.Some? <==> ids.Some? && |ids.value| > 0
    ensures r.Some? ==> r.value.Arr? && |r.value.items| == |ids.value|
    ensures r.Some? ==> forall i | 0 <= i < |ids.value| :: r.value.items[i] == Num(ids.value[i])
  {
    if ids.Some? && |ids.value| > 0 then
      Some(Arr(seq(|ids.value|, i requires 0 <= i < |ids.value| => Num(ids.value[i]))))
    else None
  }

  /** A parsed tag list as a body value: present only when it holds at least one tag. */
  function TagList(tags: Option<seq<string>>): (r: Value)
    ensures r.Some? <==> tags.Some? && |tags.value| > 0
    ensures r.Some? ==> r.value.Arr? && |r.value.items| == |tags.value|
    ensures r.Some? ==> forall i | 0 <= i < |tags.value| :: r.value.items[i] == Str(tags.value[i])
  {
    if tags.Some? && |tags.value| > 0 then
      Some(Arr(seq(|tags.value|, i requires 0 <= i < |tags.value| => Str(tags.value[i]))))
    else None
  }

  /** The value of an optional input that is kept only when truthy. */
  function IfTruthy(v: Value): (r: Value)
    ensures r.Some? <==> Truthy(v)
    ensures r.Some? ==> r == v
  {
    if Truthy(v) then v else None
  }

  /** The value of an optional boolean input (`typeof v === "boolean"`), `false` included. */
  function IfBool(v: Value): (r: Value)
    ensures r.Some? <==> v.Some? && v.value.Bool?
    ensures r.Some? ==> r == v
  {
    if v.Some? && v.value.Bool? then v else None
  }

  /** The value of an optional number input (`typeof v === "number"`), 0 included. */
  function IfNumber(v: Value): (r: Value)
    ensures r.Some? <==> v.Some? && v.value.Num?
    ensures r.Some? ==> r == v
  {
    if v.Some? && v.value.Num? then v else None
  }

  /** A time `toMs` gave, as a body value (`due_date`, `start`, `end`): present exactly when
      `toMs` gave a number. */
  function Millis(ms: Option<int>): (r: Value)
    ensures r.Some? <==> ms.Some?
    ensures r.Some? ==> r.value == Num(ms.value)
  {
    if ms.Some? then Some(Num(ms.value)) else None
  }

  /** `due_date_time: true` of the task nodes, set beside `due_date` when the due input is
      not a bare digit run (`^\d+$`). For due text that means: a time was read and some
      character of the text is not a digit; an empty or missing due never sets it, and
      neither does a non-negative number, which prints as digits. */
  function DueDateTime(due: Value, ms: Option<int>): (r: Value)
    ensures r.Some? <==> ms.Some? && Truthy(due) && !AllDigits(ToStr(due.value))
    ensures due.Some? && due.value.Str? ==>
      (r.Some? <==> ms.Some? && exists i | 0 <= i < |due.value.s| :: !IsDigit(due.value.s[i]))
    ensures !Truthy(due) ==> r.None?
    ensures due.Some? && due.value.Num? && due.value.n >= 0 ==> r.None?
    ensures r.Some? ==> r.value == Bool(true)
  {
    if ms.Some? && Truthy(due) && !AllDigits(ToStr(due.value)) then Some(Bool(true)) else None
  }
}
