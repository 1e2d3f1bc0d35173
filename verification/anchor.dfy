/**
 * The web client's heading-to-anchor function (`getAnchorValue`): trim,
 * lower-case, drop the first `#`, blank out punctuation, mask a leading
 * digit or dash, turn each whitespace run into one dash, strip trailing
 * dashes, then hand the slug to `removeEmojis`, which stays a parameter.
 */
module AnchorValue {
  import opened Strings

  /**
   * The characters JavaScript's `\s` matches, which are also the ones
   * `String.prototype.trim` removes: white space and line terminators.
   */
  predicate IsSpace(c: char) {
    || c == ' ' || c == '\t' || c == '\n' || c == '\r' || c == '\U{000B}' || c == '\U{000C}'
    || c == '\U{00A0}' || c == '\U{1680}' || ('\U{2000}' <= c <= '\U{200A}')
    || c == '\U{2028}' || c == '\U{2029}' || c == '\U{202F}' || c == '\U{205F}'
    || c == '\U{3000}' || c == '\U{FEFF}'
  }

  /** The class of characters the slug turns into a space, the space itself included. */
  predicate IsPunctuation(c: char) {
    || c == '`' || c == '$' || c == '&' || c == '+' || c == ',' || c == ':' || c == ';' || c == '='
    || c == '?' || c == '@' || c == '|' || c == '\'' || c == '.' || c == '<' || c == '>' || c == '^'
    || c == '*' || c == '(' || c == ')' || c == '\\' || c == '/' || c == '%' || c == '!'
    || c == '\U{00AE}' || c == '\U{FF1A}' || c == ' '
  }

  predicate IsDigit(c: char) { '0' <= c <= '9' }

  predicate AllSpace(s: string) { forall i :: 0 <= i < |s| ==> IsSpace(s[i]) }

  lemma AllSpaceConcat(a: string, b: string)
    requires AllSpace(a) && AllSpace(b)
    ensures AllSpace(a + b)
  {
  }

  /** Regrouping a string framed by two others. */
  lemma Regroup(p: string, a: string, m: string, b: string, q: string)
    ensures p + (a + m + b) + q == (p + a) + m + (b + q)
  {
  }

  // ---------------------------------------------------------------------------
  // trim

  /** `s` without its leading whitespace. */
  function TrimStart(s: string): (r: string)
    ensures |r| <= |s| && r == s[|s| - |r|..]
    ensures AllSpace(s[..|s| - |r|])
    ensures |r| > 0 ==> !IsSpace(r[0])
  {
    if |s| > 0 && IsSpace(s[0]) then TrimStart(s[1..]) else s
  }

  /** `s` without its trailing whitespace. */
  function TrimEnd(s: string): (r: string)
    ensures |r| <= |s| && r == s[..|r|]
    ensures AllSpace(s[|r|..])
    ensures |r| > 0 ==> !IsSpace(r[|r| - 1])
  {
    if |s| > 0 && IsSpace(s[|s| - 1]) then TrimEnd(s[..|s| - 1]) else s
  }

  /** Where the slice `Trim` keeps begins. */
  function TrimIndex(s: string): (i: nat)
    ensures i <= |s|
  {
    |s| - |TrimStart(s)|
  }

  /** `String.prototype.trim`: the slice of `s` between its leading and its trailing whitespace. */
  function Trim(s: string): (r: string)
    ensures |r| > 0 ==> !IsSpace(r[0]) && !IsSpace(r[|r| - 1])
    ensures TrimIndex(s) + |r| <= |s|
    ensures s == s[..TrimIndex(s)] + r + s[TrimIndex(s) + |r|..]
    ensures AllSpace(s[..TrimIndex(s)]) && AllSpace(s[TrimIndex(s) + |r|..])
  {
    var t := TrimStart(s);
    var r := TrimEnd(t);
    SliceAround(s, t, r);
    r
  }

  /** A prefix `r` of a suffix `t` of `s` sits in `s` between what precedes `t` and what follows `r` in `t`. */
  lemma SliceAround(s: string, t: string, r: string)
    requires |t| <= |s| && t == s[|s| - |t|..]
    requires |r| <= |t| && r == t[..|r|]
    ensures s == s[..|s| - |t|] + r + s[|s| - |t| + |r|..]
    ensures s[|s| - |t| + |r|..] == t[|r|..]
  {
    var i := |s| - |t|;
    assert s == s[..i] + t;
    assert t == r + t[|r|..];
  }

  /** Whitespace before a string that does not start with whitespace is all `TrimStart` removes. */
  lemma {:induction false} TrimStartSkips(a: string, t: string)
    requires AllSpace(a)
    requires |t| > 0 ==> !IsSpace(t[0])
    ensures TrimStart(a + t) == t
  {
    if |a| == 0 {
      assert a + t == t;
    } else {
      assert (a + t)[0] == a[0];
      assert (a + t)[1..] == a[1..] + t;
      TrimStartSkips(a[1..], t);
    }
  }

  /** Whitespace after a string that does not end with whitespace is all `TrimEnd` removes. */
  lemma {:induction false} TrimEndSkips(t: string, b: string)
    requires AllSpace(b)
    requires |t| > 0 ==> !IsSpace(t[|t| - 1])
    ensures TrimEnd(t + b) == t
  {
    if |b| == 0 {
      assert t + b == t;
    } else {
      var b' := b[..|b| - 1];
      assert (t + b)[|t + b| - 1] == b[|b| - 1];
      assert (t + b)[..|t + b| - 1] == t + b';
      TrimEndSkips(t, b');
    }
  }

  /**
   * `Trim` is characterised by its result: a middle part that neither
   * starts nor ends with whitespace, between two runs of whitespace.
   */
  lemma TrimUnique(a: string, m: string, b: string)
    requires AllSpace(a) && AllSpace(b)
    requires |m| > 0 ==> !IsSpace(m[0]) && !IsSpace(m[|m| - 1])
    ensures Trim(a + m + b) == m
  {
    if |m| == 0 {
      assert a + m + b == a + b;
      assert AllSpace(a + b);
    } else {
      assert a + m + b == a + (m + b);
      TrimStartSkips(a, m + b);
      TrimEndSkips(m, b);
    }
  }

  // ---------------------------------------------------------------------------
  // toLowerCase

  /** The lower case of an ASCII letter; any other character is its own lower case. */
  function LowerChar(c: char): (d: char)
    ensures !('A' <= d <= 'Z')
    ensures 'A' <= c <= 'Z' ==> d as int == c as int + 32
    ensures !('A' <= c <= 'Z') ==> d == c
  {
    if 'A' <= c <= 'Z' then (c as int + 32) as char else c
  }

  /** `toLowerCase`, restricted to ASCII letters. */
  function LowerAscii(s: string): (r: string)
    ensures |r| == |s|
    ensures forall i :: 0 <= i < |s| ==> r[i] == LowerChar(s[i])
  {
    seq(|s|, i requires 0 <= i < |s| => LowerChar(s[i]))
  }

  /** Lower-casing keeps whitespace, `#`, punctuation, digits and dashes where they are, and makes nothing else into them. */
  lemma LowerKeepsClasses(c: char)
    ensures IsSpace(LowerChar(c)) <==> IsSpace(c)
    ensures LowerChar(c) == '#' <==> c == '#'
    ensures LowerChar(c) == '-' <==> c == '-'
    ensures IsPunctuation(LowerChar(c)) <==> IsPunctuation(c)
    ensures IsDigit(LowerChar(c)) <==> IsDigit(c)
  {
    if 'A' <= c <= 'Z' {
      assert 'a' <= LowerChar(c) <= 'z';
    }
  }

  /** Lower-casing a concatenation lower-cases each part. */
  lemma LowerConcat(a: string, b: string)
    ensures LowerAscii(a + b) == LowerAscii(a) + LowerAscii(b)
  {
    assert forall i :: 0 <= i < |a + b| ==> LowerAscii(a + b)[i] == (LowerAscii(a) + LowerAscii(b))[i];
  }

  /** Lower-casing whitespace leaves whitespace. */
  lemma LowerAllSpace(a: string)
    requires AllSpace(a)
    ensures AllSpace(LowerAscii(a))
  {
    forall k | 0 <= k < |a|
      ensures IsSpace(LowerAscii(a)[k])
    {
      LowerKeepsClasses(a[k]);
    }
  }

  /** Lower-casing commutes with trimming. */
  lemma TrimThenLower(s: string)
    ensures Trim(LowerAscii(s)) == LowerAscii(Trim(s))
  {
    var m := Trim(s);
    var i := TrimIndex(s);
    LowerTrimParts(s[..i], m, s[i + |m|..]);
  }

  /** Lower-casing whitespace, a middle part and whitespace, then trimming, gives the lower-cased middle part. */
  lemma LowerTrimParts(a: string, m: string, b: string)
    requires AllSpace(a) && AllSpace(b)
    requires |m| > 0 ==> !IsSpace(m[0]) && !IsSpace(m[|m| - 1])
    ensures Trim(LowerAscii(a + m + b)) == LowerAscii(m)
  {
    LowerConcat(a, m);
    LowerConcat(a + m, b);
    LowerAllSpace(a);
    LowerAllSpace(b);
    if |m| > 0 {
      LowerKeepsClasses(m[0]);
      LowerKeepsClasses(m[|m| - 1]);
    }
    TrimUnique(LowerAscii(a), LowerAscii(m), LowerAscii(b));
  }


  // ---------------------------------------------------------------------------
  // replace('#', '')

  /** A string `replace` with a string pattern: only the first `#` is removed. */
  function RemoveFirstHash(s: string): (r: string)
    ensures '#' !in s ==> r == s
    ensures '#' in s ==> |r| == |s| - 1 && r == s[..IndexOf(s, '#')] + s[IndexOf(s, '#') + 1..]
  {
    var k := IndexOf(s, '#');
    if k == |s| then s else s[..k] + s[k + 1..]
  }

  /**
   * Removing the first `#` lowers the count of `#` by one when there is
   * one, and keeps every other character as often as it was.
   */
  lemma RemoveFirstHashCounts(s: string)
    ensures multiset(RemoveFirstHash(s))['#'] == multiset(s)['#'] - (if '#' in s then 1 else 0)
    ensures forall c :: c != '#' ==> multiset(RemoveFirstHash(s))[c] == multiset(s)[c]
  {
    var k := IndexOf(s, '#');
    if k < |s| {
      SplitAt(s, k);
    }
  }

  /** The characters after the removed `#`, later `#` included, keep their order. */
  lemma RemoveFirstHashKeepsTail(s: string)
    requires '#' in s
    ensures forall j :: IndexOf(s, '#') < j < |s| ==> RemoveFirstHash(s)[j - 1] == s[j]
  {
    var k := IndexOf(s, '#');
    var r := RemoveFirstHash(s);
    assert r == s[..k] + s[k + 1..];
    forall j | k < j < |s|
      ensures r[j - 1] == s[j]
    {
      assert r[j - 1] == s[k + 1..][j - 1 - k];
    }
  }

  /** The characters of `s` are those before position `k`, the one at `k`, and those after it. */
  lemma SplitAt(s: string, k: nat)
    requires k < |s|
    ensures multiset(s) == multiset(s[..k]) + multiset{s[k]} + multiset(s[k + 1..])
    ensures multiset(s[..k] + s[k + 1..]) == multiset(s[..k]) + multiset(s[k + 1..])
  {
    assert s == s[..k] + [s[k]] + s[k + 1..];
  }

  // ---------------------------------------------------------------------------
  // replace(/[...]/g, ' ')

  /** Every punctuation character becomes a space; everything else stays. */
  function BlankPunctuation(s: string): (r: string)
    ensures |r| == |s|
    ensures forall i :: 0 <= i < |s| ==> (IsPunctuation(s[i]) ==> r[i] == ' ') && (!IsPunctuation(s[i]) ==> r[i] == s[i])
  {
    seq(|s|, i requires 0 <= i < |s| => if IsPunctuation(s[i]) then ' ' else s[i])
  }

  // ---------------------------------------------------------------------------
  // replace(/^[0-9-]/g, 'X')

  /** A digit or dash in first position becomes `X`; no other position changes. */
  function MaskLeading(s: string): (r: string)
    ensures |r| == |s|
    ensures forall i :: 1 <= i < |s| ==> r[i] == s[i]
    ensures |s| > 0 && (IsDigit(s[0]) || s[0] == '-') ==> r[0] == 'X'
    ensures |s| > 0 && !(IsDigit(s[0]) || s[0] == '-') ==> r[0] == s[0]
  {
    if |s| > 0 && (IsDigit(s[0]) || s[0] == '-') then ['X'] + s[1..] else s
  }

  // ---------------------------------------------------------------------------
  // replace(/\s+/g, '-')

  /** Each maximal run of whitespace becomes one dash. */
  function CollapseSpace(s: string): (r: string)
    ensures forall c :: c in r ==> !IsSpace(c)
    ensures forall c :: c in r ==> c == '-' || c in s
    ensures (forall c :: c in s ==> !IsSpace(c)) ==> r == s
    decreases |s|
  {
    if |s| == 0 then []
    else if IsSpace(s[0]) then
      var t := TrimStart(s[1..]);
      assert forall c :: c in t ==> c in s;
      "-" + CollapseSpace(t)
    else
      assert s == [s[0]] + s[1..];
      [s[0]] + CollapseSpace(s[1..])
  }

  /** Collapsing whitespace keeps every character that is neither whitespace nor a dash, as often as it occurs. */
  lemma {:induction false} CollapseKeepsCounts(s: string, c: char)
    requires !IsSpace(c) && c != '-'
    ensures multiset(CollapseSpace(s))[c] == multiset(s)[c]
    decreases |s|
  {
    if |s| > 0 {
      CollapseHead(s);
      CollapseStep(s);
      MultisetHead(s);
      if IsSpace(s[0]) {
        var t := TrimStart(s[1..]);
        TrimStartCounts(s[1..], c);
        CollapseKeepsCounts(t, c);
      } else {
        CollapseKeepsCounts(s[1..], c);
      }
    }
  }

  /** One step of `CollapseSpace` on a non-empty string. */
  lemma CollapseStep(s: string)
    requires |s| > 0
    ensures !IsSpace(s[0]) ==> multiset(CollapseSpace(s)) == multiset{s[0]} + multiset(CollapseSpace(s[1..]))
    ensures IsSpace(s[0]) ==> multiset(CollapseSpace(s)) == multiset{'-'} + multiset(CollapseSpace(TrimStart(s[1..])))
  {
  }

  /** The characters of a non-empty string are its first one and the rest. */
  lemma MultisetHead(s: string)
    requires |s| > 0
    ensures multiset(s) == multiset{s[0]} + multiset(s[1..])
  {
    assert s == [s[0]] + s[1..];
  }

  /** `TrimStart` removes no character that is not whitespace. */
  lemma TrimStartCounts(s: string, c: char)
    requires !IsSpace(c)
    ensures multiset(TrimStart(s))[c] == multiset(s)[c]
  {
    var t := TrimStart(s);
    var w := s[..|s| - |t|];
    assert s == w + t;
    NoSpaceIn(w, c);
  }

  /** A leading whitespace run ahead of a string with some non-whitespace is all `TrimStart` removes from the pair. */
  lemma {:induction false} TrimStartConcat(t: string, u: string)
    requires exists k :: 0 <= k < |t| && !IsSpace(t[k])
    ensures TrimStart(t + u) == TrimStart(t) + u
  {
    if IsSpace(t[0]) {
      assert (t + u)[0] == t[0];
      assert (t + u)[1..] == t[1..] + u;
      var k :| 0 <= k < |t| && !IsSpace(t[k]);
      assert t[1..][k - 1] == t[k];
      TrimStartConcat(t[1..], u);
    }
  }

  /** A character that is not whitespace does not occur in whitespace. */
  lemma NoSpaceIn(w: string, c: char)
    requires AllSpace(w) && !IsSpace(c)
    ensures multiset(w)[c] == 0
  {
    assert c !in w;
  }

  /** One step of `CollapseSpace`: a character that is not whitespace is kept, a whitespace run starts a dash. */
  lemma CollapseHead(s: string)
    requires |s| > 0
    ensures !IsSpace(s[0]) ==> CollapseSpace(s) == [s[0]] + CollapseSpace(s[1..])
    ensures IsSpace(s[0]) ==> CollapseSpace(s) == "-" + CollapseSpace(TrimStart(s[1..]))
  {
  }

  lemma Assoc(x: string, y: string, z: string)
    ensures x + (y + z) == (x + y) + z
  {
  }

  /** The head and tail of a concatenation whose first part is not empty. */
  lemma ConcatHead(a: string, u: string)
    requires |a| > 0
    ensures (a + u)[0] == a[0] && (a + u)[1..] == a[1..] + u
  {
  }

  /**
   * A whitespace run between two strings that do not touch it with
   * whitespace becomes exactly one dash, and both sides are collapsed on
   * their own.
   */
  lemma {:induction false} CollapseRun(a: string, w: string, b: string)
    requires |w| > 0 && AllSpace(w)
    requires |a| > 0 ==> !IsSpace(a[|a| - 1])
    requires |b| > 0 ==> !IsSpace(b[0])
    ensures CollapseSpace(a + (w + b)) == CollapseSpace(a) + ("-" + CollapseSpace(b))
    decreases |a|
  {
    if |a| == 0 {
      CollapseRunAtStart(w, b);
      assert a + (w + b) == w + b;
    } else if IsSpace(a[0]) {
      assert a[1..][|a| - 2] == a[|a| - 1];
      var a' := TrimStart(a[1..]);
      CollapseRun(a', w, b);
      CollapseRunAfterSpace(a, w + b, "-" + CollapseSpace(b));
    } else {
      assert |a| > 1 ==> a[1..][|a| - 2] == a[|a| - 1];
      CollapseRun(a[1..], w, b);
      CollapseRunAfterKept(a, w + b, "-" + CollapseSpace(b));
    }
  }

  /** `CollapseRun` when nothing precedes the run. */
  lemma CollapseRunAtStart(w: string, b: string)
    requires |w| > 0 && AllSpace(w)
    requires |b| > 0 ==> !IsSpace(b[0])
    ensures CollapseSpace(w + b) == "-" + CollapseSpace(b)
  {
    ConcatHead(w, b);
    CollapseHead(w + b);
    TrimStartSkips(w[1..], b);
  }

  /** `CollapseRun` one step in, when the first string starts with whitespace. */
  lemma CollapseRunAfterSpace(a: string, u: string, tail: string)
    requires |a| > 0 && IsSpace(a[0])
    requires exists k :: 0 <= k < |a[1..]| && !IsSpace(a[1..][k])
    requires CollapseSpace(TrimStart(a[1..]) + u) == CollapseSpace(TrimStart(a[1..])) + tail
    ensures CollapseSpace(a + u) == CollapseSpace(a) + tail
  {
    ConcatHead(a, u);
    CollapseHead(a + u);
    CollapseHead(a);
    TrimStartConcat(a[1..], u);
    Assoc("-", CollapseSpace(TrimStart(a[1..])), tail);
  }

  /** `CollapseRun` one step in, when the first string starts with a kept character. */
  lemma CollapseRunAfterKept(a: string, u: string, tail: string)
    requires |a| > 0 && !IsSpace(a[0])
    requires CollapseSpace(a[1..] + u) == CollapseSpace(a[1..]) + tail
    ensures CollapseSpace(a + u) == CollapseSpace(a) + tail
  {
    ConcatHead(a, u);
    CollapseHead(a + u);
    CollapseHead(a);
    Assoc([a[0]], CollapseSpace(a[1..]), tail);
  }

  // ---------------------------------------------------------------------------
  // replace(/-+$/, '')

  /** `s` without its trailing dashes. */
  function StripTrailingDashes(s: string): (r: string)
    ensures |r| <= |s| && r == s[..|r|]
    ensures forall i :: |r| <= i < |s| ==> s[i] == '-'
    ensures |r| > 0 ==> r[|r| - 1] != '-'
  {
    if |s| > 0 && s[|s| - 1] == '-' then StripTrailingDashes(s[..|s| - 1]) else s
  }

  // ---------------------------------------------------------------------------
  // the whole function

  /**
   * The string `getAnchorValue` hands to `removeEmojis`: no whitespace and
   * no punctuation reaches it, and it does not end with a dash.
   */
  function Slug(s: string): (r: string)
    ensures forall c :: c in r ==> !IsSpace(c) && !IsPunctuation(c)
    ensures |r| > 0 ==> r[|r| - 1] != '-'
  {
    var removed := RemoveFirstHash(LowerAscii(Trim(s)));
    MaskedPunctuationIsSpace(removed);
    FinishedShape(MaskLeading(BlankPunctuation(removed)));
    StripTrailingDashes(CollapseSpace(MaskLeading(BlankPunctuation(removed))))
  }

  /**
   * `getAnchorValue`, with the emoji filter as a parameter. A filter that
   * only deletes characters cannot bring whitespace or punctuation back,
   * and a filter that leaves its input alone leaves the slug.
   */
  function AnchorValue(removeEmojis: string -> string, s: string): (r: string)
    ensures (forall t, c :: c in removeEmojis(t) ==> c in t) ==> forall c :: c in r ==> !IsSpace(c) && !IsPunctuation(c)
    ensures (forall t :: removeEmojis(t) == t) ==> r == Slug(s)
  {
    removeEmojis(Slug(s))
  }

  /** After blanking, the only punctuation left is the space. */
  lemma BlankedPunctuationIsSpace(s: string)
    ensures forall c :: c in BlankPunctuation(s) && IsPunctuation(c) ==> c == ' '
  {
    var r := BlankPunctuation(s);
    forall c | c in r && IsPunctuation(c)
      ensures c == ' '
    {
      var i :| 0 <= i < |r| && r[i] == c;
    }
  }

  /** Masking brings in no character but `X`. */
  lemma MaskedFrom(s: string)
    ensures forall c :: c in MaskLeading(s) ==> c == 'X' || c in s
  {
    var r := MaskLeading(s);
    forall c | c in r
      ensures c == 'X' || c in s
    {
      var i :| 0 <= i < |r| && r[i] == c;
      if i > 0 {
        assert r[i] == s[i];
      }
    }
  }

  /** Once the only punctuation left is the space, collapsing whitespace leaves no punctuation at all. */
  lemma CollapsedHasNoPunctuation(s: string)
    requires forall c :: c in s && IsPunctuation(c) ==> c == ' '
    ensures forall c :: c in CollapseSpace(s) ==> !IsSpace(c) && !IsPunctuation(c)
  {
  }

  /** After blanking and masking, the only punctuation left is the space. */
  lemma MaskedPunctuationIsSpace(s: string)
    ensures forall c :: c in MaskLeading(BlankPunctuation(s)) && IsPunctuation(c) ==> c == ' '
  {
    BlankedPunctuationIsSpace(s);
    MaskedFrom(BlankPunctuation(s));
  }

  /** The last two steps leave neither whitespace nor punctuation when the only punctuation was the space. */
  lemma FinishedShape(s: string)
    requires forall c :: c in s && IsPunctuation(c) ==> c == ' '
    ensures forall c :: c in StripTrailingDashes(CollapseSpace(s)) ==> !IsSpace(c) && !IsPunctuation(c)
  {
    CollapsedHasNoPunctuation(s);
    var collapsed := CollapseSpace(s);
    assert forall c :: c in StripTrailingDashes(collapsed) ==> c in collapsed;
  }

  /** Two strings of equal length agree on where `c` occurs, so they hold it equally often. */
  lemma {:induction false} SameOccurrences(a: string, b: string, c: char)
    requires |a| == |b|
    requires forall i :: 0 <= i < |a| ==> (a[i] == c <==> b[i] == c)
    ensures multiset(a)[c] == multiset(b)[c]
  {
    if |a| > 0 {
      SameOccurrences(a[1..], b[1..], c);
      assert a == [a[0]] + a[1..];
      assert b == [b[0]] + b[1..];
    }
  }

  /** Trimming removes no `#`. */
  lemma TrimKeepsHashes(s: string)
    ensures multiset(Trim(s))['#'] == multiset(s)['#']
  {
    var i := TrimIndex(s);
    var m := Trim(s);
    assert '#' !in s[..i];
    assert '#' !in s[i + |m|..];
  }

  /** Lower-casing, blanking punctuation and masking the first character move no `#`. */
  lemma PointwiseStepsKeepHashes(s: string)
    ensures multiset(LowerAscii(s))['#'] == multiset(s)['#']
    ensures multiset(BlankPunctuation(s))['#'] == multiset(s)['#']
    ensures multiset(MaskLeading(s))['#'] == multiset(s)['#']
  {
    forall k | 0 <= k < |s|
      ensures s[k] == '#' <==> LowerAscii(s)[k] == '#'
    {
      LowerKeepsClasses(s[k]);
    }
    SameOccurrences(s, LowerAscii(s), '#');
    SameOccurrences(s, BlankPunctuation(s), '#');
    SameOccurrences(s, MaskLeading(s), '#');
  }

  /** Stripping trailing dashes removes no `#`. */
  lemma StripKeepsHashes(s: string)
    ensures multiset(StripTrailingDashes(s))['#'] == multiset(s)['#']
  {
    var r := StripTrailingDashes(s);
    assert s == r + s[|r|..];
    assert '#' !in s[|r|..];
  }

  /** The slug holds one `#` fewer than the input when the input has one, and as many otherwise. */
  lemma SlugHashes(s: string)
    ensures multiset(Slug(s))['#'] == multiset(s)['#'] - (if '#' in s then 1 else 0)
  {
    var lowered := LowerAscii(Trim(s));
    LoweredHashes(s);
    var removed := RemoveFirstHash(lowered);
    RemovedHashes(lowered);
    LaterStepsKeepHashes(removed);
    assert '#' in s <==> multiset(s)['#'] > 0;
    assert '#' in lowered <==> multiset(lowered)['#'] > 0;
  }

  /** Trimming and lower-casing keep every `#`. */
  lemma LoweredHashes(s: string)
    ensures multiset(LowerAscii(Trim(s)))['#'] == multiset(s)['#']
  {
    TrimKeepsHashes(s);
    PointwiseStepsKeepHashes(Trim(s));
  }

  /** Removing the first `#` removes exactly one when there is one. */
  lemma RemovedHashes(s: string)
    ensures multiset(RemoveFirstHash(s))['#'] == multiset(s)['#'] - (if '#' in s then 1 else 0)
  {
    RemoveFirstHashCounts(s);
  }

  /** Blanking, masking, collapsing and stripping keep every `#`. */
  lemma LaterStepsKeepHashes(s: string)
    ensures multiset(StripTrailingDashes(CollapseSpace(MaskLeading(BlankPunctuation(s)))))['#'] == multiset(s)['#']
  {
    var blanked := BlankPunctuation(s);
    PointwiseStepsKeepHashes(s);
    var masked := MaskLeading(blanked);
    PointwiseStepsKeepHashes(blanked);
    var collapsed := CollapseSpace(masked);
    CollapseKeepsCounts(masked, '#');
    StripKeepsHashes(collapsed);
  }

  /** Whitespace around a heading does not change its slug. */
  lemma SlugIgnoresSurroundingSpace(before: string, s: string, after: string)
    requires AllSpace(before) && AllSpace(after)
    ensures Slug(before + s + after) == Slug(s)
  {
    TrimIgnoresSurroundingSpace(before, s, after);
  }

  /** Whitespace around a string does not change what `Trim` keeps. */
  lemma TrimIgnoresSurroundingSpace(before: string, s: string, after: string)
    requires AllSpace(before) && AllSpace(after)
    ensures Trim(before + s + after) == Trim(s)
  {
    var m := Trim(s);
    var i := TrimIndex(s);
    var a, b := s[..i], s[i + |m|..];
    Regroup(before, a, m, b, after);
    AllSpaceConcat(before, a);
    AllSpaceConcat(b, after);
    TrimUnique(before + a, m, b + after);
  }

  /** Headings that differ only in the case of ASCII letters have the same slug. */
  lemma SlugIgnoresAsciiCase(s: string, t: string)
    requires LowerAscii(s) == LowerAscii(t)
    ensures Slug(s) == Slug(t)
  {
    TrimThenLower(s);
    TrimThenLower(t);
  }
}
