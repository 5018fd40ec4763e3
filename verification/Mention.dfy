/** `body_mentions_number` in `src/model.rs`, and the normalisation of the number it looks for. */
module Mentions {
  import opened Wrappers
  import opened Text

  predicate AllDigits(s: string) {
    forall c :: c in s ==> IsDigit(c)
  }

  /** The maximal run of ASCII digits of `s` that starts at `i`. */
  function DigitRun(s: string, i: nat): (r: string)
    requires i <= |s|
    decreases |s| - i
  {
    if i < |s| && IsDigit(s[i]) then [s[i]] + DigitRun(s, i + 1) else ""
  }

  /** The bot is tagged: some `@` is followed by exactly its number. */
  ghost predicate Tagged(body: string, number: string) {
    exists i :: 0 <= i < |body| && body[i] == '@' && DigitRun(body, i + 1) == number
  }

  /** The needle stands at `i` and no digit follows it. */
  predicate CleanMatch(needle: string, body: string, i: int) {
    OccursAt(needle, body, i) && (i + |needle| < |body| ==> !IsDigit(body[i + |needle|]))
  }

  lemma {:induction false} DigitRunShape(s: string, i: nat)
    requires i <= |s|
    ensures var r := DigitRun(s, i);
            && OccursAt(r, s, i) && AllDigits(r)
            && (i + |r| < |s| ==> !IsDigit(s[i + |r|]))
    decreases |s| - i
  {
    if i < |s| && IsDigit(s[i]) {
      DigitRunShape(s, i + 1);
      assert s[i..i + 1 + |DigitRun(s, i + 1)|] == [s[i]] + s[i + 1..i + 1 + |DigitRun(s, i + 1)|];
    }
  }

  lemma {:induction false} DigitRunIs(s: string, i: nat, number: string)
    requires i <= |s| && AllDigits(number) && OccursAt(number, s, i)
    requires i + |number| < |s| ==> !IsDigit(s[i + |number|])
    ensures DigitRun(s, i) == number
    decreases |number|
  {
    if number != "" {
      assert s[i] == s[i..i + |number|][0] == number[0];
      assert number[0] in number;
      assert s[i + 1..i + |number|] == s[i..i + |number|][1..] == number[1..];
      DigitRunIs(s, i + 1, number[1..]);
      assert number == [number[0]] + number[1..];
    }
  }

  lemma OccursAfterAt(body: string, number: string, i: int)
    ensures OccursAt("@" + number, body, i) <==> 0 <= i < |body| && body[i] == '@' && OccursAt(number, body, i + 1)
  {
    if 0 <= i && i + 1 + |number| <= |body| {
      var piece := body[i..i + 1 + |number|];
      assert piece == [body[i]] + body[i + 1..i + 1 + |number|];
      assert piece == "@" + number <==> piece[0] == '@' && piece[1..] == number;
    }
  }

  lemma CleanMatchIsTag(body: string, number: string, i: int)
    requires AllDigits(number)
    ensures CleanMatch("@" + number, body, i) <==>
            0 <= i < |body| && body[i] == '@' && DigitRun(body, i + 1) == number
  {
    OccursAfterAt(body, number, i);
    if CleanMatch("@" + number, body, i) {
      DigitRunIs(body, i + 1, number);
    }
    if 0 <= i < |body| {
      DigitRunShape(body, i + 1);
    }
  }

  /** `str::find` from a given position. */
  method Find(needle: string, s: string, from: nat) returns (r: Option<nat>)
    requires from <= |s|
    ensures r.Some? ==> from <= r.value && OccursAt(needle, s, r.value)
    ensures forall i :: from <= i && (r.Some? ==> i < r.value) ==> !OccursAt(needle, s, i)
  {
    var i := from;
    while i + |needle| <= |s|
      invariant from <= i
      invariant forall j :: from <= j < i ==> !OccursAt(needle, s, j)
    {
      if s[i..i + |needle|] == needle {
        return Some(i);
      }
      i := i + 1;
    }
    return None;
  }

  /** The scan jumps past a rejected match. Nothing is lost by that as long as the number contains
      no `@`, because the needle then cannot overlap itself. */
  method BodyMentionsNumber(body: string, number: string) returns (r: bool)
    ensures number == "" ==> !r
    ensures number != "" && '@' !in number ==> (r <==> exists i :: CleanMatch("@" + number, body, i))
    ensures number != "" && AllDigits(number) ==> (r <==> Tagged(body, number))
  {
    if number == "" {
      return false;
    }
    var needle := "@" + number;
    var searchFrom := 0;
    r := false;
    while true
      invariant searchFrom <= |body|
      invariant '@' !in number ==> forall i :: 0 <= i < searchFrom ==> !CleanMatch(needle, body, i)
      invariant !r
      decreases |body| - searchFrom
    {
      var found := Find(needle, body, searchFrom);
      if found.None? {
        break;
      }
      var end := found.value + |needle|;
      if end < |body| && IsDigit(body[end]) {
        forall i | found.value < i < end && '@' !in number ensures !OccursAt(needle, body, i) {
          NoOverlap(number, body, found.value, i);
        }
        searchFrom := end;
      } else {
        r := true;
        assert CleanMatch(needle, body, found.value);
        break;
      }
    }
    if AllDigits(number) {
      assert '@' !in number;
      forall i: int ensures CleanMatch(needle, body, i) <==>
                       0 <= i < |body| && body[i] == '@' && DigitRun(body, i + 1) == number {
        CleanMatchIsTag(body, number, i);
      }
    }
  }

  lemma NoOverlap(number: string, body: string, p: nat, i: nat)
    requires '@' !in number && OccursAt("@" + number, body, p) && p < i < p + 1 + |number|
    ensures !OccursAt("@" + number, body, i)
  {
    var needle := "@" + number;
    assert body[i] == body[p..p + |needle|][i - p] == needle[i - p] == number[i - p - 1];
    OccursAfterAt(body, number, i);
  }

  // ---------------------------------------------------------------- the number itself

  function StripPlus(s: string): string {
    if s != "" && s[0] == '+' then StripPlus(s[1..]) else s
  }

  function DigitsOf(s: string): (r: string)
    ensures AllDigits(r)
  {
    if s == "" then "" else (if IsDigit(s[0]) then [s[0]] else "") + DigitsOf(s[1..])
  }

  function NormaliseSelfNumber(raw: string): (r: string)
    ensures AllDigits(r)
  {
    var user := StripPlus(Trim(raw));
    DigitsOf(user[..IndexOf(user, '@')])
  }

  /** What the configuration keeps: a number, if any, meets the conditions of the exact scan. */
  function SelfNumber(raw: Option<string>): (r: Option<string>)
    ensures r.Some? ==> r.value != "" && AllDigits(r.value)
  {
    if raw.Some? && NormaliseSelfNumber(raw.value) != "" then Some(NormaliseSelfNumber(raw.value)) else None
  }

  /** The digits, in order and nothing else. */
  lemma {:induction false} DigitsOfOneMore(s: string, c: char)
    ensures DigitsOf(s + [c]) == DigitsOf(s) + if IsDigit(c) then [c] else ""
  {
    if s == "" {
      assert "" + [c] == [c];
    } else {
      DigitsOfOneMore(s[1..], c);
      assert (s + [c])[1..] == s[1..] + [c];
    }
  }

  lemma {:induction false} NoDigits(s: string)
    ensures DigitsOf(s) == "" <==> forall i :: 0 <= i < |s| ==> !IsDigit(s[i])
  {
    if s != "" {
      NoDigits(s[1..]);
      assert forall i :: 0 < i < |s| ==> s[i] == s[1..][i - 1];
      assert (forall i :: 0 <= i < |s[1..]| ==> !IsDigit(s[1..][i])) <==>
             (forall i :: 0 < i < |s| ==> !IsDigit(s[i]))
      by {
        if forall i :: 0 < i < |s| ==> !IsDigit(s[i]) {
          assert forall i :: 0 <= i < |s[1..]| ==> s[1..][i] == s[i + 1];
        }
      }
    }
  }

  predicate DigitBeforeAt(t: string, i: int) {
    0 <= i < |t| && IsDigit(t[i]) && forall j :: 0 <= j < i ==> t[j] != '@'
  }

  ghost predicate NamesNumber(t: string) {
    exists i :: DigitBeforeAt(t, i)
  }

  lemma UserPartHasDigit(user: string)
    ensures DigitsOf(user[..IndexOf(user, '@')]) != "" <==> NamesNumber(user)
  {
    var cut := IndexOf(user, '@');
    var part := user[..cut];
    NoDigits(part);
    if i :| DigitBeforeAt(user, i) {
      assert i < cut;
      assert IsDigit(part[i]);
    }
    if DigitsOf(part) != "" {
      var i :| 0 <= i < |part| && IsDigit(part[i]);
      assert forall j :: 0 <= j < i ==> user[j] == part[j] && part[j] in part;
      assert DigitBeforeAt(user, i);
    }
  }

  lemma FirstDoesNotMatter(t: string, i: int)
    requires t != "" && t[0] == '+'
    ensures DigitBeforeAt(t, i) <==> DigitBeforeAt(t[1..], i - 1)
  {
    assert forall j :: 0 <= j < |t| - 1 ==> t[1..][j] == t[j + 1];
    if DigitBeforeAt(t[1..], i - 1) {
      assert forall j :: 0 < j < i ==> t[j] == t[1..][j - 1];
    }
  }

  lemma {:induction false} PlusesDoNotMatter(t: string)
    ensures NamesNumber(t) <==> NamesNumber(StripPlus(t))
  {
    if t != "" && t[0] == '+' {
      PlusesDoNotMatter(t[1..]);
      if NamesNumber(t) {
        var i :| DigitBeforeAt(t, i);
        FirstDoesNotMatter(t, i);
        assert NamesNumber(t[1..]);
      }
      if NamesNumber(t[1..]) {
        var i :| DigitBeforeAt(t[1..], i);
        FirstDoesNotMatter(t, i + 1);
        assert DigitBeforeAt(t, i + 1);
        assert NamesNumber(t);
      }
    }
  }

  /** The setting names a number exactly when a digit stands in it before any `@`. */
  lemma NumberIsGivenIff(raw: Option<string>)
    ensures SelfNumber(raw).Some? <==> raw.Some? && NamesNumber(Trim(raw.value))
  {
    if raw.Some? {
      PlusesDoNotMatter(Trim(raw.value));
      UserPartHasDigit(StripPlus(Trim(raw.value)));
    }
  }

  lemma {:induction false} DigitsOfDigits(s: string)
    requires AllDigits(s)
    ensures DigitsOf(s) == s
  {
    if s != "" {
      assert s[0] in s && forall c :: c in s[1..] ==> c in s;
      DigitsOfDigits(s[1..]);
    }
  }

  lemma {:induction false} FirstAt(number: string, suffix: string)
    requires AllDigits(number) && (suffix != "" ==> suffix[0] == '@')
    ensures IndexOf(number + suffix, '@') == |number|
  {
    var s := number + suffix;
    if number == "" {
      assert s == suffix;
    } else {
      assert number[0] in number && forall c :: c in number[1..] ==> c in number;
      FirstAt(number[1..], suffix);
      assert s[1..] == number[1..] + suffix;
    }
  }

  lemma UserPart(number: string, suffix: string)
    requires AllDigits(number) && (suffix != "" ==> suffix[0] == '@')
    ensures var s := number + suffix; DigitsOf(s[..IndexOf(s, '@')]) == number
  {
    FirstAt(number, suffix);
    assert (number + suffix)[..|number|] == number;
    DigitsOfDigits(number);
  }

  lemma StripsOnePlus(s: string, plus: bool)
    requires s != "" && s[0] != '+'
    ensures StripPlus((if plus then "+" else "") + s) == s
  {
    assert ("+" + s)[1..] == s && "" + s == s;
  }

  predicate Spelling(number: string, suffix: string) {
    number != "" && AllDigits(number)
    && (suffix != "" ==> suffix[0] == '@' && !IsSpace(suffix[|suffix| - 1]))
  }

  lemma SpellingIsTrimmed(number: string, suffix: string, plus: bool)
    requires Spelling(number, suffix)
    ensures number + suffix != "" && IsDigit((number + suffix)[0])
    ensures Trimmed((if plus then "+" else "") + (number + suffix))
  {
    var s := number + suffix;
    assert number[0] in number && number[|number| - 1] in number;
    assert s[0] == number[0];
    assert s[|s| - 1] == if suffix == "" then number[|number| - 1] else suffix[|suffix| - 1];
  }

  /** The documented spellings of one number agree: bare, with a plus sign, or as a full JID. */
  lemma SpellingsAgree(number: string, suffix: string, plus: bool)
    requires Spelling(number, suffix)
    ensures NormaliseSelfNumber((if plus then "+" else "") + (number + suffix)) == number
  {
    var t := (if plus then "+" else "") + (number + suffix);
    SpellingIsTrimmed(number, suffix, plus);
    TrimOfTrimmed(t);
    StripsOnePlus(number + suffix, plus);
    UserPart(number, suffix);
  }
}
