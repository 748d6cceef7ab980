/**
 * The query-string coercers and body validators of src/shared/validation.ts. The Zod
 * schema machinery itself is not modelled: each coercer is the function its
 * `transform` or `refine` callback computes.
 */
module Validation {
  import opened Wrappers

  // ---------------------------------------------------------------------------
  // String.prototype.split with a one-character separator
  // ---------------------------------------------------------------------------

  /** `s.split(sep)`: the pieces between separators, always at least one ("" gives [""]). */
  function Split(s: string, sep: char): (pieces: seq<string>)
    ensures |pieces| >= 1
    ensures forall i :: 0 <= i < |pieces| ==> sep !in pieces[i]
  {
    if s == [] then [""]
    else
      var rest := Split(s[1..], sep);
      if s[0] == sep then [""] + rest
      else [[s[0]] + rest[0]] + rest[1..]
  }

  /** `pieces.join(sep)`. */
  function Join(pieces: seq<string>, sep: char): string
  {
    if pieces == [] then ""
    else if |pieces| == 1 then pieces[0]
    else pieces[0] + [sep] + Join(pieces[1..], sep)
  }

  /** Splitting loses nothing: joining the pieces back gives the input. */
  lemma {:induction false} JoinSplit(s: string, sep: char)
    ensures Join(Split(s, sep), sep) == s
  {
    if s != [] {
      var rest := Split(s[1..], sep);
      JoinSplit(s[1..], sep);
      if s[0] == sep {
        assert Split(s, sep) == [""] + rest;
        assert ([""] + rest)[1..] == rest;
      } else {
        var pieces := [[s[0]] + rest[0]] + rest[1..];
        assert Split(s, sep) == pieces;
        if |rest| > 1 {
          assert pieces[1..] == rest[1..];
          assert Join(rest, sep) == rest[0] + [sep] + Join(rest[1..], sep);
        }
      }
    }
  }

  // ---------------------------------------------------------------------------
  // String.prototype.trim
  // ---------------------------------------------------------------------------

  /** ECMAScript WhiteSpace and LineTerminator code points, which `trim` removes. */
  predicate IsJsSpace(c: char)
  {
    || c == '\t' || c == '\n' || c == '\U{000B}' || c == '\U{000C}' || c == '\r' || c == ' '
    || c == '\U{00A0}' || c == '\U{1680}' || ('\U{2000}' <= c <= '\U{200A}')
    || c == '\U{2028}' || c == '\U{2029}' || c == '\U{202F}' || c == '\U{205F}'
    || c == '\U{3000}' || c == '\U{FEFF}'
  }

  /** Neither end of `s` is whitespace. */
  predicate IsTrimmed(s: string)
  {
    s == [] || (!IsJsSpace(s[0]) && !IsJsSpace(s[|s| - 1]))
  }

  /** Drops the leading whitespace: the result is the suffix after a whitespace-only prefix. */
  function TrimStart(s: string): (r: string)
    ensures |r| <= |s| && r == s[|s| - |r|..]
    ensures forall k :: 0 <= k < |s| - |r| ==> IsJsSpace(s[k])
    ensures r == [] || !IsJsSpace(r[0])
  {
    if s != [] && IsJsSpace(s[0]) then TrimStart(s[1..]) else s
  }

  /** Drops the trailing whitespace: the result is the prefix before a whitespace-only suffix. */
  function TrimEnd(s: string): (r: string)
    ensures |r| <= |s| && r == s[..|r|]
    ensures forall k :: |r| <= k < |s| ==> IsJsSpace(s[k])
    ensures r == [] || !IsJsSpace(r[|r| - 1])
  {
    if s != [] && IsJsSpace(s[|s| - 1]) then TrimEnd(s[..|s| - 1]) else s
  }

  /** `s.trim()`: `s` without its leading and trailing whitespace. */
  function Trim(s: string): (r: string)
    ensures IsTrimmed(r)
  {
    TrimEnd(TrimStart(s))
  }

  /** Trimming adds no character: one absent from `s` is absent from `Trim(s)`. */
  lemma {:induction false} TrimAddsNothing(s: string, x: char)
    requires x !in s
    ensures x !in Trim(s)
  {
    var t := TrimStart(s);
    var i := |s| - |t|;
    var r := TrimEnd(t);
    SliceMiddle(s, t, r, i);
    AbsentFromSlice(s, i, i + |r|, x);
  }

  /** What `trim` cuts off is whitespace at both ends, and what it keeps is a slice. */
  lemma {:induction false} TrimIsMiddle(s: string)
    ensures exists i, j :: (0 <= i <= j <= |s| && Trim(s) == s[i..j]
      && (forall k :: 0 <= k < i ==> IsJsSpace(s[k]))
      && (forall k :: j <= k < |s| ==> IsJsSpace(s[k])))
  {
    var i, j := TrimBounds(s);
    MiddleWitness(s, i, j);
  }

  /** Where `trim` cuts: the kept slice's bounds, with whitespace on either side of it. */
  lemma {:induction false} TrimBounds(s: string) returns (i: nat, j: nat)
    ensures i <= j <= |s| && Trim(s) == s[i..j]
    ensures forall k :: 0 <= k < i ==> IsJsSpace(s[k])
    ensures forall k :: j <= k < |s| ==> IsJsSpace(s[k])
  {
    var t := TrimStart(s);
    i, j := CutBounds(s, t, TrimEnd(t), IsJsSpace);
  }

  /** Cutting a `p`-prefix and then a `p`-suffix off `s` keeps a slice with `p` on either side. */
  lemma {:induction false} CutBounds(s: string, t: string, r: string, p: char -> bool) returns (i: nat, j: nat)
    requires |t| <= |s| && t == s[|s| - |t|..]
    requires forall k :: 0 <= k < |s| - |t| ==> p(s[k])
    requires |r| <= |t| && r == t[..|r|]
    requires forall k :: |r| <= k < |t| ==> p(t[k])
    ensures i <= j <= |s| && r == s[i..j]
    ensures forall k :: 0 <= k < i ==> p(s[k])
    ensures forall k :: j <= k < |s| ==> p(s[k])
  {
    i := |s| - |t|;
    j := i + |r|;
    SliceMiddle(s, t, r, i);
    TailHolds(s, t, i, |r|, p);
  }

  /** A prefix of a suffix of `s` is a slice of `s`. */
  lemma {:induction false} SliceMiddle(s: string, t: string, r: string, i: nat)
    requires i <= |s| && t == s[i..] && |r| <= |t| && r == t[..|r|]
    ensures r == s[i..i + |r|]
  {
  }

  /** A character absent from `s` is absent from every slice of it. */
  lemma {:induction false} AbsentFromSlice(s: string, a: nat, b: nat, x: char)
    requires a <= b <= |s| && x !in s
    ensures x !in s[a..b]
  {
    forall k | 0 <= k < b - a ensures s[a..b][k] != x { assert s[a..b][k] == s[a + k]; }
  }

  /** A property of the tail of a suffix `t` of `s` holds of the same positions of `s`. */
  lemma {:induction false} TailHolds(s: string, t: string, i: nat, n: nat, p: char -> bool)
    requires i <= |s| && t == s[i..] && n <= |t|
    requires forall k :: n <= k < |t| ==> p(t[k])
    ensures forall k :: i + n <= k < |s| ==> p(s[k])
  {
    forall k | i + n <= k < |s| ensures p(s[k]) { assert s[k] == t[k - i]; }
  }

  lemma {:induction false} MiddleWitness(s: string, i: nat, j: nat)
    requires i <= j <= |s|
    requires Trim(s) == s[i..j]
    requires forall k :: 0 <= k < i ==> IsJsSpace(s[k])
    requires forall k :: j <= k < |s| ==> IsJsSpace(s[k])
    ensures exists i, j :: (0 <= i <= j <= |s| && Trim(s) == s[i..j]
      && (forall k :: 0 <= k < i ==> IsJsSpace(s[k]))
      && (forall k :: j <= k < |s| ==> IsJsSpace(s[k])))
  {
  }

  /** Trimming a string that has no whitespace at its ends returns it. */
  lemma {:induction false} TrimTrimmed(s: string)
    requires IsTrimmed(s)
    ensures Trim(s) == s
  {
  }

  // ---------------------------------------------------------------------------
  // stringArray, numberArray, boolean
  // ---------------------------------------------------------------------------

  /** What `stringArray` accepts: a comma-separated string or an array of strings. */
  datatype StringOrList = Text(text: string) | List(items: seq<string>)

  /** `.map((s) => s.trim())`. */
  function TrimEach(pieces: seq<string>): (r: seq<string>)
    ensures |r| == |pieces|
    ensures forall i :: 0 <= i < |r| ==> r[i] == Trim(pieces[i])
  {
    seq(|pieces|, i requires 0 <= i < |pieces| => Trim(pieces[i]))
  }

  /**
   * `.filter(Boolean)` on strings: keeps the non-empty ones, each as often as it
   * occurs, in order (the order: DropEmptyAppend).
   */
  function DropEmpty(pieces: seq<string>): (r: seq<string>)
    ensures |r| <= |pieces|
    ensures forall i :: 0 <= i < |r| ==> r[i] != [] && r[i] in pieces
    ensures forall x :: multiset(r)[x] == if x == [] then 0 else multiset(pieces)[x]
    ensures (forall i :: 0 <= i < |pieces| ==> pieces[i] != []) ==> r == pieces
  {
    if pieces == [] then []
    else
      assert pieces == [pieces[0]] + pieces[1..];
      if pieces[0] == [] then DropEmpty(pieces[1..])
      else [pieces[0]] + DropEmpty(pieces[1..])
  }

  /** The filter works piece by piece: filtering a concatenation concatenates the filtered parts. */
  lemma {:induction false} DropEmptyAppend(a: seq<string>, b: seq<string>)
    ensures DropEmpty(a + b) == DropEmpty(a) + DropEmpty(b)
  {
    if a != [] {
      assert (a + b)[0] == a[0] && (a + b)[1..] == a[1..] + b;
      DropEmptyAppend(a[1..], b);
    } else {
      assert a + b == b;
    }
  }

  /**
   * `stringArray`: a string is split on ",", each piece trimmed and empty pieces
   * dropped; an array is returned as it is.
   */
  function StringArray(v: StringOrList): (r: seq<string>)
    ensures v.List? ==> r == v.items
    ensures v.Text? ==> |r| <= |Split(v.text, ',')|
    ensures v.Text? ==> forall i :: 0 <= i < |r| ==> r[i] != [] && IsTrimmed(r[i]) && ',' !in r[i]
  {
    match v
    case List(items) => items
    case Text(s) =>
      var pieces := Split(s, ',');
      var trimmed := TrimEach(pieces);
      var r := DropEmpty(trimmed);
      forall i | 0 <= i < |r| ensures r[i] != [] && IsTrimmed(r[i]) && ',' !in r[i] {
        var j :| 0 <= j < |trimmed| && trimmed[j] == r[i];
        assert r[i] == Trim(pieces[j]);
        TrimAddsNothing(pieces[j], ',');
      }
      r
  }

  /**
   * What `stringArray` keeps of a string: exactly the non-empty trimmed pieces, so a
   * value is in the result iff it is not empty and some piece trims to it.
   */
  lemma {:induction false} StringArrayMembers(s: string, x: string)
    ensures x in StringArray(Text(s)) <==> x != [] && exists p :: p in Split(s, ',') && Trim(p) == x
  {
    var pieces := Split(s, ',');
    assert StringArray(Text(s)) == DropEmpty(TrimEach(pieces));
    DropEmptyMembers(TrimEach(pieces), x);
    TrimEachMembers(pieces, x);
  }

  /** The filter keeps a value iff it is non-empty and present. */
  lemma DropEmptyMembers(t: seq<string>, x: string)
    ensures x in DropEmpty(t) <==> x != [] && x in t
  {
    assert x in DropEmpty(t) <==> multiset(DropEmpty(t))[x] > 0;
    assert x in t <==> multiset(t)[x] > 0;
  }

  /** A value is among the trimmed pieces iff some piece trims to it. */
  lemma TrimEachMembers(pieces: seq<string>, x: string)
    ensures x in TrimEach(pieces) <==> exists p :: p in pieces && Trim(p) == x
  {
    var trimmed := TrimEach(pieces);
    if x in trimmed {
      var j :| 0 <= j < |trimmed| && trimmed[j] == x;
      assert pieces[j] in pieces && Trim(pieces[j]) == x;
    }
    if p :| p in pieces && Trim(p) == x {
      var j :| 0 <= j < |pieces| && pieces[j] == p;
      assert trimmed[j] == x;
    }
  }

  /** A canonical list (no empty piece, no padding) survives the round trip unchanged. */
  lemma {:induction false} StringArrayCanonical(s: string)
    requires forall i :: 0 <= i < |Split(s, ',')| ==> Split(s, ',')[i] != [] && IsTrimmed(Split(s, ',')[i])
    ensures StringArray(Text(s)) == Split(s, ',')
    ensures Join(StringArray(Text(s)), ',') == s
  {
    var pieces := Split(s, ',');
    var trimmed := TrimEach(pieces);
    forall i | 0 <= i < |pieces| ensures trimmed[i] == pieces[i] {
      TrimTrimmed(pieces[i]);
    }
    assert trimmed == pieces;
    JoinSplit(s, ',');
  }

  /**
   * `.filter((n) => n !== undefined)`: keeps each defined value exactly as often as the
   * input has it (the order: KeepDefinedAppend).
   */
  function KeepDefined<N(!new)>(xs: seq<Option<N>>): (r: seq<N>)
    ensures |r| <= |xs|
    ensures forall x :: multiset(r)[x] == multiset(xs)[Some(x)]
  {
    if xs == [] then []
    else
      assert xs == [xs[0]] + xs[1..];
      if xs[0].None? then KeepDefined(xs[1..])
      else [xs[0].value] + KeepDefined(xs[1..])
  }

  /** The filter works value by value: filtering a concatenation concatenates the filtered parts. */
  lemma {:induction false} KeepDefinedAppend<N(!new)>(a: seq<Option<N>>, b: seq<Option<N>>)
    ensures KeepDefined(a + b) == KeepDefined(a) + KeepDefined(b)
  {
    if a != [] {
      var h, t := a[0], a[1..];
      assert (a + b)[0] == h && (a + b)[1..] == t + b;
      KeepDefinedAppend(t, b);
      var kept := if h.None? then [] else [h.value];
      assert KeepDefined(a + b) == kept + KeepDefined(t + b);
      assert KeepDefined(a) == kept + KeepDefined(t);
    } else {
      assert a + b == b;
    }
  }

  /** `.map((s) => Number(s))`; `Number` never yields `undefined`. */
  function ToNumbers<N>(pieces: seq<string>, toNumber: string -> N): (r: seq<Option<N>>)
    ensures |r| == |pieces|
    ensures forall i :: 0 <= i < |r| ==> r[i] == Some(toNumber(pieces[i]))
  {
    if pieces == [] then [] else [Some(toNumber(pieces[0]))] + ToNumbers(pieces[1..], toNumber)
  }

  /** Filtering a list of defined values keeps all of them. */
  lemma {:induction false} KeepDefinedAll<N(!new)>(xs: seq<Option<N>>)
    requires forall i :: 0 <= i < |xs| ==> xs[i].Some?
    ensures |KeepDefined(xs)| == |xs|
    ensures forall i :: 0 <= i < |xs| ==> KeepDefined(xs)[i] == xs[i].value
  {
    if xs != [] {
      KeepDefinedAll(xs[1..]);
    }
  }

  /**
   * `numberArray`: one number per comma-separated piece, in order. `toNumber` stands
   * for JavaScript's `Number(...)` conversion, which is outside the model; the
   * `undefined` filter removes nothing.
   */
  function NumberArray<N(!new)>(s: string, toNumber: string -> N): (r: seq<N>)
    ensures |r| == |Split(s, ',')|
    ensures forall i :: 0 <= i < |r| ==> r[i] == toNumber(Split(s, ',')[i])
  {
    var xs := ToNumbers(Split(s, ','), toNumber);
    KeepDefinedAll(xs);
    KeepDefined(xs)
  }

  /** `boolean`: `!!val`, true exactly for a non-empty string. */
  function Boolean(s: string): (b: bool)
    ensures b <==> |s| > 0
  {
    s != []
  }

  /** The coercion reads no words: the string "false" is true. */
  lemma {:induction false} BooleanOfFalseIsTrue()
    ensures Boolean("false") && !Boolean("")
  {
  }

  // ---------------------------------------------------------------------------
  // body.password
  // ---------------------------------------------------------------------------

  /** The rules of `body.password`, in the order they are declared. */
  datatype PasswordRule = MinLength | Uppercase | Lowercase | Digit | Special {

    /** The message Zod reports when the rule fails. */
    function Message(): string
    {
      match this
      case MinLength => "Password must be at least 8 characters long"
      case Uppercase => "Password must contain at least one uppercase letter"
      case Lowercase => "Password must contain at least one lowercase letter"
      case Digit => "Password must contain at least one number"
      case Special => "Password must contain at least one special character"
    }
  }

  /** The character class `[!@#$%^&*()_\-+=\[\]{};:",.<>?/\\|]`. */
  const SpecialCharacters := "!@#$%^&*()_-+=[]{};:\",.<>?/\\|"

  predicate IsUpper(c: char) { 'A' <= c <= 'Z' }
  predicate IsLower(c: char) { 'a' <= c <= 'z' }
  predicate IsDigit(c: char) { '0' <= c <= '9' }

  /**
   * `s.length` in JavaScript: the string's UTF-16 code units, two for a character
   * outside the Basic Multilingual Plane and one for any other.
   */
  function Utf16Length(s: string): (n: nat)
    ensures |s| <= n <= 2 * |s|
    ensures (forall k :: 0 <= k < |s| ==> s[k] as int <= 0xFFFF) ==> n == |s|
  {
    if s == [] then 0 else (if s[0] as int > 0xFFFF then 2 else 1) + Utf16Length(s[1..])
  }

  /** Whether password `s` passes `rule`; `.min(8)` counts UTF-16 code units. */
  predicate Passes(rule: PasswordRule, s: string)
  {
    match rule
    case MinLength => Utf16Length(s) >= 8
    case Uppercase => exists c :: c in s && IsUpper(c)
    case Lowercase => exists c :: c in s && IsLower(c)
    case Digit => exists c :: c in s && IsDigit(c)
    case Special => exists c :: c in s && c in SpecialCharacters
  }

  /**
   * The password rules all hold: at least 8 UTF-16 code units, an upper- and a
   * lower-case letter, a digit and a special character.
   */
  predicate IsStrongPassword(s: string)
  {
    && Utf16Length(s) >= 8
    && (exists c :: c in s && IsUpper(c))
    && (exists c :: c in s && IsLower(c))
    && (exists c :: c in s && IsDigit(c))
    && (exists c :: c in s && c in SpecialCharacters)
  }

  /**
   * `body.password`: the failed rules, in declaration order. Every rule is checked
   * (Zod reports all failed checks of one string), each with its own message.
   */
  function PasswordIssues(s: string): (failed: seq<PasswordRule>)
    ensures failed == [] <==> IsStrongPassword(s)
    ensures forall i, j :: 0 <= i < j < |failed| ==> failed[i] != failed[j]
  {
    (if Passes(MinLength, s) then [] else [MinLength])
    + (if Passes(Uppercase, s) then [] else [Uppercase])
    + (if Passes(Lowercase, s) then [] else [Lowercase])
    + (if Passes(Digit, s) then [] else [Digit])
    + (if Passes(Special, s) then [] else [Special])
  }

  /** A rule is among the reported failures exactly when the password does not pass it. */
  lemma {:induction false} PasswordIssuesExact(s: string, rule: PasswordRule)
    ensures rule in PasswordIssues(s) <==> !Passes(rule, s)
  {
    var a := if Passes(MinLength, s) then [] else [MinLength];
    var b := if Passes(Uppercase, s) then [] else [Uppercase];
    var c := if Passes(Lowercase, s) then [] else [Lowercase];
    var d := if Passes(Digit, s) then [] else [Digit];
    var e := if Passes(Special, s) then [] else [Special];
    assert PasswordIssues(s) == a + b + c + d + e;
    assert rule in a + b + c + d + e <==> rule in a || rule in b || rule in c || rule in d || rule in e;
  }

  /** A password is strong exactly when it passes every one of the five rules. */
  lemma {:induction false} StrongIffAllRules(s: string)
    ensures IsStrongPassword(s) <==> forall rule :: Passes(rule, s)
  {
    if IsStrongPassword(s) {
      forall rule ensures Passes(rule, s) {
        match rule
        case MinLength =>
        case Uppercase =>
        case Lowercase =>
        case Digit =>
        case Special =>
      }
    } else {
      assert !Passes(MinLength, s) || !Passes(Uppercase, s) || !Passes(Lowercase, s)
             || !Passes(Digit, s) || !Passes(Special, s);
    }
  }

  /**
   * Length is counted as JavaScript counts it: "Aa1!" followed by two characters outside
   * the Basic Multilingual Plane (two emoji, say) is six characters but eight code units,
   * long enough to pass every rule.
   */
  lemma {:induction false} AstralPasswordIsLongEnough(e: char)
    requires e as int > 0xFFFF
    ensures var s := ['A', 'a', '1', '!', e, e]; |s| == 6 && Utf16Length(s) == 8 && PasswordIssues(s) == []
  {
    var s := ['A', 'a', '1', '!', e, e];
    AstralLength(s, e);
    assert s[0] in s && IsUpper(s[0]) && s[1] in s && IsLower(s[1]) && s[2] in s && IsDigit(s[2]);
    assert s[3] in s && s[3] in SpecialCharacters;
    assert IsStrongPassword(s);
  }

  /** Four ASCII characters and two astral ones make eight UTF-16 code units. */
  lemma AstralLength(s: string, e: char)
    requires e as int > 0xFFFF && s == ['A', 'a', '1', '!', e, e]
    ensures Utf16Length(s) == 8
  {
    assert Utf16Length([e]) == 2 by { assert [e][1..] == []; }
    assert Utf16Length([e, e]) == 4 by { assert [e, e][1..] == [e]; }
    assert Utf16Length(['!', e, e]) == 5 by { assert ['!', e, e][1..] == [e, e]; }
    assert Utf16Length(['1', '!', e, e]) == 6 by { assert ['1', '!', e, e][1..] == ['!', e, e]; }
    assert Utf16Length(['a', '1', '!', e, e]) == 7 by { assert ['a', '1', '!', e, e][1..] == ['1', '!', e, e]; }
    assert s[1..] == ['a', '1', '!', e, e];
  }

  /** The five messages are pairwise different, so each failure is reported distinctly. */
  lemma {:induction false} PasswordMessagesDistinct(a: PasswordRule, b: PasswordRule)
    requires a != b
    ensures a.Message() != b.Message()
  {
    var m, n := a.Message(), b.Message();
    if |m| == |n| {
      match (a, b)
      case (Uppercase, Lowercase) => assert m[35] != n[35];
      case (Lowercase, Uppercase) => assert m[35] != n[35];
      case _ =>
    }
  }

  // ---------------------------------------------------------------------------
  // body.email: /^[a-zA-Z0-9.!#$%&'*+/=?^_`{|}~-]+@[a-zA-Z0-9](?:[a-zA-Z0-9-]{0,61}[a-zA-Z0-9])?(?:\.[a-zA-Z]{2,})+$/
  // ---------------------------------------------------------------------------

  predicate IsLetter(c: char) { IsUpper(c) || IsLower(c) }
  predicate IsAlnum(c: char) { IsLetter(c) || IsDigit(c) }

  /** The characters allowed before the "@". */
  predicate IsLocalChar(c: char) { IsAlnum(c) || c in ".!#$%&'*+/=?^_`{|}~-" }

  /** `[a-zA-Z0-9.!#$%&'*+/=?^_`{|}~-]+`. */
  predicate IsLocalPart(s: string) { |s| >= 1 && forall k :: 0 <= k < |s| ==> IsLocalChar(s[k]) }

  /** `[a-zA-Z0-9](?:[a-zA-Z0-9-]{0,61}[a-zA-Z0-9])?`: 1 to 63 characters, alphanumeric at both ends. */
  predicate IsFirstLabel(s: string)
  {
    && 1 <= |s| <= 63 && IsAlnum(s[0]) && IsAlnum(s[|s| - 1])
    && forall k :: 0 <= k < |s| ==> IsAlnum(s[k]) || s[k] == '-'
  }

  /** The number of leading ASCII letters of `s`. */
  function LetterRun(s: string): (n: nat)
    ensures n <= |s|
    ensures forall k :: 0 <= k < n ==> IsLetter(s[k])
    ensures n < |s| ==> !IsLetter(s[n])
  {
    if s != [] && IsLetter(s[0]) then 1 + LetterRun(s[1..]) else 0
  }

  /** `(?:\.[a-zA-Z]{2,})+$`: one or more groups of "." and at least two letters, to the end. */
  predicate IsSuffixGroups(t: string)
    decreases |t|
  {
    && |t| >= 3 && t[0] == '.'
    && var n := LetterRun(t[1..]);
       n >= 2 && (1 + n == |t| || IsSuffixGroups(t[1 + n..]))
  }

  /** The first position of `c` in `s`. */
  function IndexOf(s: string, c: char): (r: Option<nat>)
    ensures r.None? <==> c !in s
    ensures r.Some? ==> r.value < |s| && s[r.value] == c && c !in s[..r.value]
  {
    if s == [] then None
    else if s[0] == c then Some(0)
    else match IndexOf(s[1..], c)
      case None => None
      case Some(i) => assert s[..i + 1] == [s[0]] + s[1..][..i]; Some(i + 1)
  }

  /** The domain: the label before the first ".", then the suffix groups. */
  predicate IsDomain(d: string)
  {
    match IndexOf(d, '.')
    case None => false
    case Some(j) => IsFirstLabel(d[..j]) && IsSuffixGroups(d[j..])
  }

  /** The email matcher: a local part up to the first "@", then a domain. */
  predicate IsEmail(s: string)
  {
    match IndexOf(s, '@')
    case None => false
    case Some(i) => IsLocalPart(s[..i]) && IsDomain(s[i + 1..])
  }

  /** Suffix groups hold only dots and letters, and end in a letter. */
  lemma {:induction false} SuffixGroupsChars(t: string)
    requires IsSuffixGroups(t)
    ensures forall k :: 0 <= k < |t| ==> t[k] == '.' || IsLetter(t[k])
    ensures IsLetter(t[|t| - 1])
    decreases |t|
  {
    var n := GroupStep(t);
    if 1 + n != |t| {
      var rest := t[1 + n..];
      SuffixGroupsChars(rest);
      CharsShift(t, 1 + n);
      assert t[|t| - 1] == rest[|rest| - 1];
    } else {
      assert IsLetter(t[n]);
    }
  }

  /** A suffix that is a run of groups ends in "." and at least two letters. */
  lemma {:induction false} SuffixGroupsEnd(t: string)
    requires IsSuffixGroups(t)
    ensures exists p :: 0 <= p <= |t| - 3 && t[p] == '.' && forall m :: p < m < |t| ==> IsLetter(t[m])
    decreases |t|
  {
    var n := GroupStep(t);
    if 1 + n == |t| {
      assert 0 <= 0 <= |t| - 3 && t[0] == '.' && forall m :: 0 < m < |t| ==> IsLetter(t[m]);
    } else {
      var rest := t[1 + n..];
      SuffixGroupsEnd(rest);
      var p :| 0 <= p <= |rest| - 3 && rest[p] == '.' && forall m :: p < m < |rest| ==> IsLetter(rest[m]);
      EndShifts(t, 1 + n, p);
    }
  }

  /** The first group of a run of suffix groups: "." and `n` letters, then the end or more groups. */
  lemma {:induction false} GroupStep(t: string) returns (n: nat)
    requires IsSuffixGroups(t)
    ensures |t| >= 3 && t[0] == '.' && 2 <= n && 1 + n <= |t|
    ensures forall m :: 0 < m <= n ==> IsLetter(t[m])
    ensures 1 + n == |t| || IsSuffixGroups(t[1 + n..])
  {
    n := LetterRun(t[1..]);
    RunLetters(t, n);
  }

  /** Dots and letters found in a suffix of `t` are dots and letters of `t`. */
  lemma {:induction false} CharsShift(t: string, off: nat)
    requires off <= |t|
    requires forall k :: 0 <= k < |t| - off ==> t[off..][k] == '.' || IsLetter(t[off..][k])
    ensures forall k :: off <= k < |t| ==> t[k] == '.' || IsLetter(t[k])
  {
    var u := t[off..];
    forall k | off <= k < |t| ensures t[k] == '.' || IsLetter(t[k]) { assert t[k] == u[k - off]; }
  }

  /** The letters counted by `LetterRun` after the first character. */
  lemma {:induction false} RunLetters(t: string, n: nat)
    requires |t| >= 1 && n == LetterRun(t[1..])
    ensures 1 + n <= |t| && forall m :: 0 < m <= n ==> IsLetter(t[m])
  {
    forall m | 0 < m <= n ensures IsLetter(t[m]) { assert t[m] == t[1..][m - 1]; }
  }

  /** A final "." and letters found in a suffix of `t` are a final "." and letters of `t`. */
  lemma {:induction false} EndShifts(t: string, off: nat, p: nat)
    requires off + p + 3 <= |t| && t[off..][p] == '.'
    requires forall m :: p < m < |t| - off ==> IsLetter(t[off..][m])
    ensures exists q :: 0 <= q <= |t| - 3 && t[q] == '.' && forall m :: q < m < |t| ==> IsLetter(t[m])
  {
    var u := t[off..];
    assert t[off + p] == u[p];
    forall m | off + p < m < |t| ensures IsLetter(t[m]) { assert t[m] == u[m - off]; }
  }

  /** A position holding `c` with no `c` before it is what IndexOf finds. */
  lemma {:induction false} FirstOccurrence(s: string, c: char, i: nat)
    requires i < |s| && s[i] == c && c !in s[..i]
    ensures IndexOf(s, c) == Some(i)
  {
  }

  /** A first label holds no ".". */
  lemma {:induction false} FirstLabelHasNoDot(l: string)
    requires IsFirstLabel(l)
    ensures '.' !in l && '@' !in l
  {
    forall k | 0 <= k < |l| ensures l[k] != '.' && l[k] != '@' { assert IsAlnum(l[k]) || l[k] == '-'; }
  }

  /** The domain read as a first label of length `j` followed by suffix groups. */
  ghost predicate IsDomainAt(d: string, j: int)
  {
    0 < j < |d| && IsFirstLabel(d[..j]) && IsGroupsRegex(d[j..])
  }

  /**
   * `(?:\.[a-zA-Z]{2,})+$` as the regular expression reads it: a "." and some number
   * `k >= 2` of letters, then the end or another group.
   */
  ghost predicate IsGroupsRegex(t: string)
    decreases |t|, 1
  {
    |t| >= 3 && t[0] == '.' && exists k :: GroupAt(t, k)
  }

  /** The first group of `t` has `k` letters, and the rest of `t` is more groups or nothing. */
  ghost predicate GroupAt(t: string, k: int)
    decreases |t|, 0
  {
    && 2 <= k && 1 + k <= |t|
    && (forall m :: 1 <= m <= k ==> IsLetter(t[m]))
    && (1 + k == |t| || IsGroupsRegex(t[1 + k..]))
  }

  /**
   * The greedy letter runs of `IsSuffixGroups` find every reading of the groups: a group
   * can only end where a "." or the end follows, so the run length is forced.
   */
  lemma {:induction false} SuffixGroupsIsRegex(t: string)
    ensures IsSuffixGroups(t) <==> IsGroupsRegex(t)
    decreases |t|
  {
    if IsSuffixGroups(t) {
      var n := GroupStep(t);
      if 1 + n != |t| { SuffixGroupsIsRegex(t[1 + n..]); }
      assert GroupAt(t, n);
    }
    if IsGroupsRegex(t) {
      var k := SomeGroup(t);
      if 1 + k != |t| {
        SuffixGroupsIsRegex(t[1 + k..]);
        assert t[1 + k] == t[1 + k..][0];
      }
      RunIsGroup(t, k);
    }
  }

  /** A reading of the first group. */
  lemma {:induction false} SomeGroup(t: string) returns (k: int)
    requires IsGroupsRegex(t)
    ensures GroupAt(t, k)
  {
    assert exists k :: GroupAt(t, k);
    k :| GroupAt(t, k);
  }

  /** A group of `k` letters followed by a "." or the end is exactly the greedy run. */
  lemma {:induction false} RunIsGroup(t: string, k: int)
    requires GroupAt(t, k)
    requires 1 + k < |t| ==> t[1 + k] == '.'
    ensures LetterRun(t[1..]) == k
  {
    var u := t[1..];
    forall m | 0 <= m < k ensures IsLetter(u[m]) { assert u[m] == t[m + 1]; }
    if k < |u| { assert u[k] == t[1 + k]; }
    LetterRunExact(u, k);
  }

  /** `k` letters followed by a non-letter or the end: the letter run is `k`. */
  lemma {:induction false} LetterRunExact(s: string, k: nat)
    requires k <= |s| && forall m :: 0 <= m < k ==> IsLetter(s[m])
    requires k < |s| ==> !IsLetter(s[k])
    ensures LetterRun(s) == k
    decreases k
  {
    if k > 0 {
      var u := s[1..];
      forall m | 0 <= m < k - 1 ensures IsLetter(u[m]) { assert u[m] == s[m + 1]; }
      if k - 1 < |u| { assert u[k - 1] == s[k]; }
      LetterRunExact(u, k - 1);
    }
  }

  /** The address read as a local part of length `i`, an "@", then a domain. */
  ghost predicate IsEmailAt(s: string, i: int)
  {
    0 <= i < |s| && s[i] == '@' && IsLocalPart(s[..i]) && HasDomainSplit(s[i + 1..])
  }

  /** Some length of first label makes `d` a domain. */
  ghost predicate HasDomainSplit(d: string)
  {
    exists j :: IsDomainAt(d, j)
  }

  /** A domain splits uniquely into a first label and suffix groups. */
  lemma {:induction false} DomainSplit(d: string)
    ensures IsDomain(d) <==> HasDomainSplit(d)
  {
    if IsDomain(d) {
      var j := IndexOf(d, '.').value;
      SuffixGroupsIsRegex(d[j..]);
      assert IsDomainAt(d, j);
    }
    if HasDomainSplit(d) {
      var j :| IsDomainAt(d, j);
      SuffixGroupsIsRegex(d[j..]);
      FirstLabelHasNoDot(d[..j]);
      assert d[j] == d[j..][0];
      FirstOccurrence(d, '.', j);
    }
  }

  /** A match found by the scanning matcher is a match of the regular expression. */
  lemma {:induction false} EmailMatchIsRegexMatch(s: string)
    requires IsEmail(s)
    ensures exists i :: IsEmailAt(s, i)
  {
    var i := IndexOf(s, '@').value;
    DomainSplit(s[i + 1..]);
    assert IsEmailAt(s, i);
  }

  /** A match of the regular expression is found by the scanning matcher. */
  lemma {:induction false} RegexMatchIsEmailMatch(s: string, i: int)
    requires IsEmailAt(s, i)
    ensures IsEmail(s)
  {
    var local, d := s[..i], s[i + 1..];
    LocalPartHasNoAt(local);
    FirstOccurrence(s, '@', i);
    DomainSplit(d);
    EmailOfParts(s, i);
  }

  /** An address whose first "@" has a local part before it and a domain after it. */
  lemma {:induction false} EmailOfParts(s: string, i: nat)
    requires IndexOf(s, '@') == Some(i) && IsLocalPart(s[..i]) && IsDomain(s[i + 1..])
    ensures IsEmail(s)
  {
  }

  /** A local part holds no "@". */
  lemma {:induction false} LocalPartHasNoAt(l: string)
    requires IsLocalPart(l)
    ensures '@' !in l
  {
    forall k | 0 <= k < |l| ensures l[k] != '@' { assert IsLocalChar(l[k]); }
  }

  /**
   * The matcher accepts exactly the strings that the regular expression describes:
   * a local part, one "@", a first label and the suffix groups. Since the local part
   * holds no "@" and the label no ".", a match can be found by scanning for those.
   */
  lemma {:induction false} EmailMatchesRegex(s: string)
    ensures IsEmail(s) <==> exists i :: IsEmailAt(s, i)
  {
    if IsEmail(s) {
      EmailMatchIsRegexMatch(s);
    }
    if exists i :: IsEmailAt(s, i) {
      var i :| IsEmailAt(s, i);
      RegexMatchIsEmailMatch(s, i);
    }
  }

  /** A domain holds no "@", and ends in "." and at least two letters. */
  lemma {:induction false} DomainShape(d: string)
    requires IsDomain(d)
    ensures '@' !in d
    ensures exists p :: 0 <= p <= |d| - 3 && d[p] == '.' && forall m :: p < m < |d| ==> IsLetter(d[m])
  {
    var j := IndexOf(d, '.').value;
    var firstLabel, tail := d[..j], d[j..];
    FirstLabelHasNoDot(firstLabel);
    SuffixGroupsNoAt(tail);
    NoAtInHalves(d, j, firstLabel, tail);
    SuffixGroupsEnd(tail);
    EndShift(d, j, tail);
  }

  /** Suffix groups are dots and letters, so they hold no "@". */
  lemma {:induction false} SuffixGroupsNoAt(t: string)
    requires IsSuffixGroups(t)
    ensures '@' !in t
  {
    SuffixGroupsChars(t);
    forall k | 0 <= k < |t| ensures t[k] != '@' { assert t[k] == '.' || IsLetter(t[k]); }
  }

  /** A string cut in two halves without "@" has no "@". */
  lemma {:induction false} NoAtInHalves(d: string, j: nat, a: string, b: string)
    requires j <= |d| && a == d[..j] && b == d[j..] && '@' !in a && '@' !in b
    ensures '@' !in d
  {
    assert d == a + b;
  }

  /** A final dot-and-letters run of a suffix `t` of `d` is one of `d`. */
  lemma {:induction false} EndShift(d: string, j: nat, t: string)
    requires j <= |d| && t == d[j..]
    requires exists p :: 0 <= p <= |t| - 3 && t[p] == '.' && forall m :: p < m < |t| ==> IsLetter(t[m])
    ensures exists p :: 0 <= p <= |d| - 3 && d[p] == '.' && forall m :: p < m < |d| ==> IsLetter(d[m])
  {
    var p :| 0 <= p <= |t| - 3 && t[p] == '.' && forall m :: p < m < |t| ==> IsLetter(t[m]);
    assert d[p + j] == t[p];
    forall m | p + j < m < |d| ensures IsLetter(d[m]) { assert d[m] == t[m - j]; }
  }

  /** A domain starts with its first label, followed by a ".". */
  lemma {:induction false} DomainFirstLabel(d: string)
    requires IsDomain(d)
    ensures exists j :: 0 < j < |d| && IsFirstLabel(d[..j]) && d[j] == '.'
  {
    var j := IndexOf(d, '.').value;
    assert IsFirstLabel(d[..j]);
  }

  /** Every accepted address has exactly one "@". */
  lemma {:induction false} EmailHasOneAt(s: string)
    requires IsEmail(s)
    ensures exists i :: 0 <= i < |s| && s[i] == '@' && '@' !in s[..i] && '@' !in s[i + 1..]
  {
    var i := IndexOf(s, '@').value;
    DomainShape(s[i + 1..]);
    assert 0 <= i < |s| && s[i] == '@' && '@' !in s[..i] && '@' !in s[i + 1..];
  }

  /** The "@" of an accepted address: the first one, followed by a domain. */
  lemma {:induction false} EmailAt(s: string) returns (i: nat)
    requires IsEmail(s)
    ensures i < |s| && s[i] == '@' && '@' !in s[..i] && IsDomain(s[i + 1..])
  {
    i := IndexOf(s, '@').value;
  }

  /**
   * After the "@" of an accepted address comes a first domain label of 1 to 63
   * characters that starts and ends alphanumerically, followed by a ".".
   */
  lemma {:induction false} EmailFirstLabel(s: string)
    requires IsEmail(s)
    ensures exists i, j :: (0 <= i && i + 1 < j < |s| && s[i] == '@' && '@' !in s[..i]
      && IsFirstLabel(s[i + 1..j]) && s[j] == '.')
  {
    var i := EmailAt(s);
    var d := s[i + 1..];
    DomainFirstLabel(d);
    var j :| 0 < j < |d| && IsFirstLabel(d[..j]) && d[j] == '.';
    LabelAfterAt(s, i, d, j);
  }

  lemma {:induction false} LabelAfterAt(s: string, i: nat, d: string, j: nat)
    requires i < |s| && s[i] == '@' && '@' !in s[..i] && d == s[i + 1..]
    requires 0 < j < |d| && IsFirstLabel(d[..j]) && d[j] == '.'
    ensures exists i, j :: (0 <= i && i + 1 < j < |s| && s[i] == '@' && '@' !in s[..i]
      && IsFirstLabel(s[i + 1..j]) && s[j] == '.')
  {
    var k := i + 1 + j;
    assert d[..j] == s[i + 1..k];
    assert s[k] == d[j];
  }

  /** Every accepted address ends in "." followed by at least two ASCII letters. */
  lemma {:induction false} EmailEnding(s: string)
    requires IsEmail(s)
    ensures exists p :: 0 <= p <= |s| - 3 && s[p] == '.' && forall m :: p < m < |s| ==> IsLetter(s[m])
  {
    var i := EmailAt(s);
    var d := s[i + 1..];
    DomainShape(d);
    var p :| 0 <= p <= |d| - 3 && d[p] == '.' && forall m :: p < m < |d| ==> IsLetter(d[m]);
    EndingAfterAt(s, i, d, p);
  }

  lemma {:induction false} EndingAfterAt(s: string, i: nat, d: string, p: nat)
    requires i < |s| && d == s[i + 1..]
    requires p <= |d| - 3 && d[p] == '.' && forall m :: p < m < |d| ==> IsLetter(d[m])
    ensures exists p :: 0 <= p <= |s| - 3 && s[p] == '.' && forall m :: p < m < |s| ==> IsLetter(s[m])
  {
    assert s[p + i + 1] == d[p];
    forall m | p + i + 1 < m < |s| ensures IsLetter(s[m]) { assert s[m] == d[m - (i + 1)]; }
  }

}
