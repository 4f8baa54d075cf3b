/** `redact` of `src/crypto.rs`: a segment-wise rewriting of log text that is applied at most once with effect. */
module Redaction {
  const MASK: string := "[REDACTED]"

  /** `char::is_whitespace`: the Unicode White_Space property. */
  predicate IsWhitespace(c: char) {
    var n := c as int;
    || 0x9 <= n <= 0xD || n == 0x20 || n == 0x85 || n == 0xA0 || n == 0x1680
    || 0x2000 <= n <= 0x200A || n == 0x2028 || n == 0x2029 || n == 0x202F || n == 0x205F || n == 0x3000
  }

  /** These are the code points with the Unicode property White_Space. */
  lemma WhitespaceIsUnicode(c: char)
    ensures IsWhitespace(c) <==> c as int in {
      9, 10, 11, 12, 13, 32, 133, 160, 5_760, 8_192, 8_193, 8_194, 8_195, 8_196, 8_197, 8_198, 8_199, 8_200, 8_201,
      8_202, 8_232, 8_233, 8_239, 8_287, 12_288}
  {
  }

  /** Ends a segment. */
  predicate IsDelimiter(c: char) {
    IsWhitespace(c) || c == '"' || c == '\'' || c == '='
  }

  /** Trimmed from both ends of a segment before it is judged. */
  predicate IsTrimmed(c: char) {
    IsDelimiter(c) || c == ',' || c == '{' || c == '}'
  }

  predicate IsAsciiAlphanumeric(c: char) {
    '0' <= c <= '9' || 'A' <= c <= 'Z' || 'a' <= c <= 'z'
  }

  /** Bytes of a character in UTF-8; the source measures strings in bytes. */
  function Utf8Length(c: char): nat {
    var n := c as int;
    if n < 0x80 then 1 else if n < 0x800 then 2 else if n < 0x1_0000 then 3 else 4
  }

  /** A character takes as many bytes as its code point needs: 7, 11, 16 or 21 bits fit in one to four. */
  lemma Utf8Payload(c: char)
    ensures 1 <= Utf8Length(c) <= 4
    ensures Utf8Length(c) <= 1 <==> c as int < 128
    ensures Utf8Length(c) <= 2 <==> c as int < 2_048
    ensures Utf8Length(c) <= 3 <==> c as int < 65_536
  {
  }

  function ByteLength(s: string): nat {
    if s == [] then 0 else Utf8Length(s[0]) + ByteLength(s[1..])
  }

  function AlphanumericCount(s: string): nat {
    if s == [] then 0 else (if IsAsciiAlphanumeric(s[0]) then 1 else 0) + AlphanumericCount(s[1..])
  }

  predicate HasKeyPrefix(s: string) {
    "sk-" <= s || "AIza" <= s || "AQ." <= s || "gsk_" <= s || "sk-ant" <= s || "ya29." <= s
  }

  predicate LooksLikeSecret(s: string) {
    (HasKeyPrefix(s) && ByteLength(s) > 12) || (ByteLength(s) >= 40 && AlphanumericCount(s) >= 36)
  }

  function TrimLeft(s: string): string {
    if s != [] && IsTrimmed(s[0]) then TrimLeft(s[1..]) else s
  }

  function TrimRight(s: string): string {
    if s != [] && IsTrimmed(s[|s| - 1]) then TrimRight(s[..|s| - 1]) else s
  }

  function Trim(s: string): string {
    TrimRight(TrimLeft(s))
  }

  // ---------- What looks like a secret ----------

  /** The positions of ASCII letters and digits. */
  function AlphanumericAt(s: string): set<nat> {
    set i | 0 <= i < |s| && ('0' <= s[i] <= '9' || 'A' <= s[i] <= 'Z' || 'a' <= s[i] <= 'z')
  }

  function Shifted(a: set<nat>): set<nat> {
    set i | i in a :: i + 1
  }

  lemma ShiftedHas(a: set<nat>, x: nat)
    ensures x in Shifted(a) <==> x > 0 && x - 1 in a
  {
    if x > 0 && x - 1 in a {
      var i: nat := x - 1;
      assert i in a && i + 1 == x;
    }
  }

  lemma {:induction false} ShiftKeepsSize(a: set<nat>)
    ensures |Shifted(a)| == |a|
  {
    if a == {} {
      assert Shifted(a) == {};
    } else {
      var x :| x in a;
      ShiftKeepsSize(a - {x});
      forall y: nat ensures y in Shifted(a) <==> y in Shifted(a - {x}) + {x + 1} {
        ShiftedHas(a, y);
        ShiftedHas(a - {x}, y);
      }
      assert Shifted(a) == Shifted(a - {x}) + {x + 1};
      ShiftedHas(a - {x}, x + 1);
    }
  }

  lemma AlphanumericsFromFirst(s: string)
    requires s != ""
    ensures AlphanumericAt(s) == Shifted(AlphanumericAt(s[1..])) + if IsAsciiAlphanumeric(s[0]) then {0} else {}
  {
    var rest := AlphanumericAt(s[1..]);
    forall y: nat
      ensures y in AlphanumericAt(s) <==> y in Shifted(rest) || (y == 0 && IsAsciiAlphanumeric(s[0]))
    {
      ShiftedHas(rest, y);
      if y > 0 && y < |s| { assert s[1..][y - 1] == s[y]; }
    }
  }

  lemma {:induction false} CountsAlphanumerics(s: string)
    ensures AlphanumericCount(s) == |AlphanumericAt(s)|
  {
    if s != [] {
      var rest := AlphanumericAt(s[1..]);
      CountsAlphanumerics(s[1..]);
      AlphanumericsFromFirst(s);
      ShiftKeepsSize(rest);
      ShiftedHas(rest, 0);
    }
  }

  /** Starts like a key of one of the known providers. */
  predicate StartsLikeKey(s: string) {
    || (|s| >= 3 && s[..3] in {"sk-", "AQ."})
    || (|s| >= 4 && s[..4] in {"AIza", "gsk_"})
    || (|s| >= 5 && s[..5] == "ya29.")
  }

  lemma PrefixIsSlice(p: string, s: string)
    ensures p <= s <==> |s| >= |p| && s[..|p|] == p
  {
  }

  /** A secret is a key of more than twelve bytes, or at least forty bytes with thirty-six letters and digits. */
  lemma SecretShape(s: string)
    ensures LooksLikeSecret(s) <==>
      (StartsLikeKey(s) && ByteLength(s) > 12) || (ByteLength(s) >= 40 && |AlphanumericAt(s)| >= 36)
  {
    CountsAlphanumerics(s);
    PrefixIsSlice("sk-", s);
    PrefixIsSlice("AQ.", s);
    PrefixIsSlice("AIza", s);
    PrefixIsSlice("gsk_", s);
    PrefixIsSlice("ya29.", s);
    assert "sk-ant" <= s ==> "sk-" <= s by {
      assert "sk-ant"[..3] == "sk-";
    }
  }

  lemma {:induction false} TrimLeftShape(s: string) returns (i: nat)
    ensures i <= |s| && TrimLeft(s) == s[i..] && forall k :: 0 <= k < i ==> IsTrimmed(s[k])
    ensures i < |s| ==> !IsTrimmed(s[i])
  {
    i := 0;
    if s != [] && IsTrimmed(s[0]) {
      var n := TrimLeftShape(s[1..]);
      i := n + 1;
      assert forall k :: 1 <= k < i ==> s[k] == s[1..][k - 1];
    }
  }

  lemma {:induction false} TrimRightShape(s: string) returns (j: nat)
    ensures j <= |s| && TrimRight(s) == s[..j] && forall k :: j <= k < |s| ==> IsTrimmed(s[k])
    ensures j > 0 ==> !IsTrimmed(s[j - 1])
  {
    j := |s|;
    if s != [] && IsTrimmed(s[|s| - 1]) {
      j := TrimRightShape(s[..|s| - 1]);
    }
  }

  /** Trimming takes the trimmed characters off both ends and leaves what is between the outermost others. */
  lemma TrimShape(s: string) returns (i: nat, j: nat)
    ensures i <= j <= |s| && Trim(s) == s[i..j]
    ensures forall k :: 0 <= k < |s| && (k < i || k >= j) ==> IsTrimmed(s[k])
    ensures i < j ==> !IsTrimmed(s[i]) && !IsTrimmed(s[j - 1])
  {
    i := TrimLeftShape(s);
    var n := TrimRightShape(s[i..]);
    j := i + n;
  }

  // ---------- Segments ----------

  /** Length of the first segment: through the first delimiter, or everything. */
  function FirstSegment(s: string): nat
    requires s != []
    ensures 1 <= FirstSegment(s) <= |s|
  {
    if IsDelimiter(s[0]) || |s| == 1 then 1 else 1 + FirstSegment(s[1..])
  }

  /** `split_inclusive`: every segment keeps its delimiter; there is no empty last segment. */
  function Split(s: string): seq<string>
    decreases |s|
  {
    if s == [] then [] else var n := FirstSegment(s); [s[..n]] + Split(s[n..])
  }

  function Join(segments: seq<string>): string {
    if segments == [] then "" else segments[0] + Join(segments[1..])
  }

  predicate NoDelimiter(s: string) {
    forall i :: 0 <= i < |s| ==> !IsDelimiter(s[i])
  }

  predicate Ended(s: string) {
    s != [] && IsDelimiter(s[|s| - 1])
  }

  /** A nonempty run without delimiters, except that its last character may be one. */
  predicate IsSegment(s: string) {
    s != [] && forall i :: 0 <= i < |s| - 1 ==> !IsDelimiter(s[i])
  }

  /** A list that `Split` can produce: only the last segment may lack its delimiter. */
  predicate WellSplit(segments: seq<string>) {
    && (forall i :: 0 <= i < |segments| ==> IsSegment(segments[i]))
    && (forall i :: 0 <= i < |segments| - 1 ==> Ended(segments[i]))
  }

  lemma {:induction false} FirstSegmentShape(s: string)
    requires s != []
    ensures IsSegment(s[..FirstSegment(s)])
    ensures FirstSegment(s) < |s| ==> Ended(s[..FirstSegment(s)])
  {
    if !IsDelimiter(s[0]) && |s| > 1 {
      FirstSegmentShape(s[1..]);
      var n := FirstSegment(s[1..]);
      var whole, tail := s[..n + 1], s[1..][..n];
      assert forall i :: 1 <= i < |whole| ==> whole[i] == tail[i - 1];
    }
  }

  lemma {:induction false} FirstSegmentFound(s: string, rest: string)
    requires IsSegment(s) && (rest != [] ==> Ended(s))
    ensures FirstSegment(s + rest) == |s|
    decreases |s|
  {
    if |s| == 1 {
      assert (s + rest)[0] == s[0];
    } else {
      assert (s + rest)[0] == s[0] && (s + rest)[1..] == s[1..] + rest;
      assert forall i :: 0 <= i < |s| - 1 ==> s[1..][i] == s[i + 1];
      FirstSegmentFound(s[1..], rest);
    }
  }

  lemma {:induction false} SplitFirst(s: string)
    requires s != []
    ensures var n := FirstSegment(s);
      && Split(s) == [s[..n]] + Split(s[n..]) && s == s[..n] + s[n..]
      && (Split(s[n..]) != [] ==> n < |s|)
  {
  }

  lemma {:induction false} Prepended(s: string, rest: seq<string>)
    requires IsSegment(s) && WellSplit(rest) && (rest != [] ==> Ended(s))
    ensures WellSplit([s] + rest) && Join([s] + rest) == s + Join(rest)
  {
    var all := [s] + rest;
    assert all[0] == s && all[1..] == rest;
    assert forall i :: 1 <= i < |all| ==> all[i] == rest[i - 1];
  }

  /** Splitting is exact: the pieces are segments, and they are the whole text. */
  lemma {:induction false} SplitShape(s: string)
    ensures WellSplit(Split(s)) && Join(Split(s)) == s
    decreases |s|
  {
    if s != [] {
      var n := FirstSegment(s);
      var head, tail := s[..n], s[n..];
      FirstSegmentShape(s);
      SplitShape(tail);
      SplitFirst(s);
      Prepended(head, Split(tail));
    }
  }

  /** The key lemma: splitting rebuilt text gives back the segments it was built from. */
  lemma {:induction false} SplitJoin(segments: seq<string>)
    requires WellSplit(segments)
    ensures Split(Join(segments)) == segments
    decreases |segments|
  {
    if segments != [] {
      var s, rest := segments[0], segments[1..];
      assert WellSplit(rest) by {
        assert forall i :: 0 <= i < |rest| ==> rest[i] == segments[i + 1];
      }
      SplitJoin(rest);
      assert IsSegment(s);
      if rest == [] { assert Join(rest) == ""; } else { assert Ended(s); }
      FirstSegmentFound(s, Join(rest));
      assert (s + Join(rest))[..|s|] == s && (s + Join(rest))[|s|..] == Join(rest);
    }
  }

  lemma WellSplitAppend(a: seq<string>, b: seq<string>)
    requires WellSplit(a) && WellSplit(b) && (a != [] && b != [] ==> Ended(a[|a| - 1]))
    ensures WellSplit(a + b)
  {
  }

  lemma {:induction false} JoinConcat(a: seq<string>, b: seq<string>)
    ensures Join(a + b) == Join(a) + Join(b)
  {
    if a == [] {
      assert a + b == b;
    } else {
      assert (a + b)[0] == a[0] && (a + b)[1..] == a[1..] + b;
      JoinConcat(a[1..], b);
    }
  }

  lemma {:induction false} LastEnds(a: seq<string>)
    requires WellSplit(a) && a != []
    ensures Join(a) != "" && (Ended(Join(a)) ==> Ended(a[|a| - 1]))
    decreases |a|
  {
    if |a| > 1 {
      assert a[1..][|a| - 2] == a[|a| - 1];
      LastEnds(a[1..]);
      assert Join(a)[|Join(a)| - 1] == Join(a[1..])[|Join(a[1..])| - 1];
    } else {
      assert Join(a) == a[0] + Join([]) == a[0];
    }
  }

  /** Text can be cut behind any delimiter, and the two parts split on their own. */
  lemma SplitConcat(before: string, after: string)
    requires before == "" || Ended(before)
    ensures Split(before + after) == Split(before) + Split(after)
  {
    SplitShape(before);
    SplitShape(after);
    var a, b := Split(before), Split(after);
    if a != [] { LastEnds(a); }
    WellSplitAppend(a, b);
    JoinConcat(a, b);
    SplitJoin(a + b);
  }

  // ---------- Redaction ----------

  predicate IsSecretSegment(s: string) {
    LooksLikeSecret(Trim(s))
  }

  /** One segment: masked if it looks like a secret, keeping its delimiter. */
  function RedactSegment(s: string): string {
    if !IsSecretSegment(s) then s
    else if Ended(s) then MASK + [s[|s| - 1]]
    else MASK
  }

  function RedactAll(segments: seq<string>): seq<string> {
    seq(|segments|, i requires 0 <= i < |segments| => RedactSegment(segments[i]))
  }

  function Redacted(text: string): string {
    Join(RedactAll(Split(text)))
  }

  lemma {:induction false} JoinAppend(segments: seq<string>, s: string)
    ensures Join(segments + [s]) == Join(segments) + s
  {
    if segments == [] {
      assert segments + [s] == [s];
      assert Join([s]) == s + Join([]);
    } else {
      assert (segments + [s])[1..] == segments[1..] + [s];
      JoinAppend(segments[1..], s);
    }
  }

  /** The output once the first `i` segments have been rewritten. */
  function RedactedUpTo(segments: seq<string>, i: nat): string
    requires i <= |segments|
  {
    Join(RedactAll(segments)[..i])
  }

  lemma JoinStep(segments: seq<string>, i: nat)
    requires i < |segments|
    ensures RedactedUpTo(segments, i + 1) == RedactedUpTo(segments, i) + RedactSegment(segments[i])
  {
    assert RedactAll(segments)[..i + 1] == RedactAll(segments)[..i] + [RedactSegment(segments[i])];
    JoinAppend(RedactAll(segments)[..i], RedactSegment(segments[i]));
  }

  lemma AllRedacted(segments: seq<string>)
    ensures RedactedUpTo(segments, |segments|) == Join(RedactAll(segments))
  {
    assert RedactAll(segments)[..|segments|] == RedactAll(segments);
  }

  method Redact(text: string) returns (out: string)
    ensures out == Redacted(text)
  {
    out := "";
    var tokens := Split(text);
    var i := 0;
    while i < |tokens|
      invariant 0 <= i <= |tokens|
      invariant out == RedactedUpTo(tokens, i)
    {
      var token := tokens[i];
      ghost var before := out;
      if LooksLikeSecret(Trim(token)) {
        assert IsSecretSegment(token);
        out := out + MASK;
        if token != [] && IsDelimiter(token[|token| - 1]) {
          out := out + [token[|token| - 1]];
          assert out == before + (MASK + [token[|token| - 1]]);
        }
      } else {
        assert !IsSecretSegment(token);
        out := out + token;
      }
      assert out == before + RedactSegment(token);
      JoinStep(tokens, i);
      i := i + 1;
    }
    AllRedacted(tokens);
  }

  lemma MaskCharacters()
    ensures |MASK| == 10 && MASK[0] == '[' && MASK[9] == ']'
    ensures forall i :: 0 <= i < |MASK| ==> 'A' <= MASK[i] <= ']'
  {
  }

  lemma LetterIsNoDelimiter(c: char)
    requires 'A' <= c <= ']'
    ensures !IsDelimiter(c)
  {
  }

  lemma {:induction false} ByteLengthAscii(s: string)
    requires forall i :: 0 <= i < |s| ==> s[i] as int < 0x80
    ensures ByteLength(s) == |s|
  {
    if s != [] { ByteLengthAscii(s[1..]); }
  }

  lemma MaskIsNoSecret()
    ensures NoDelimiter(MASK) && !LooksLikeSecret(MASK)
  {
    MaskCharacters();
    ByteLengthAscii(MASK);
    forall i | 0 <= i < |MASK| ensures !IsDelimiter(MASK[i]) { LetterIsNoDelimiter(MASK[i]); }
  }

  lemma TrimMask(d: char)
    requires IsDelimiter(d)
    ensures Trim(MASK + [d]) == MASK && Trim(MASK) == MASK
  {
    MaskCharacters();
    var s := MASK + [d];
    assert s[0] == '[' && s[10] == d && s[..10] == MASK;
    assert TrimLeft(s) == s && TrimLeft(MASK) == MASK;
    assert TrimRight(MASK) == MASK;
    assert TrimRight(s) == TrimRight(s[..10]);
  }

  lemma MaskedSegment(s: string)
    requires IsSegment(s)
    ensures var r := RedactSegment(s); IsSegment(r) && (Ended(s) ==> Ended(r)) && !IsSecretSegment(r)
  {
    MaskIsNoSecret();
    if IsSecretSegment(s) {
      TrimMask(' ');
      if Ended(s) {
        TrimMask(s[|s| - 1]);
      }
    }
  }

  /** The redacted text splits into the redacted segments: same number, same order, each either untouched or masked
      with its delimiter kept. */
  lemma RedactedSegments(text: string)
    ensures Split(Redacted(text)) == RedactAll(Split(text))
  {
    SplitShape(text);
    var segments := Split(text);
    forall i | 0 <= i < |segments|
      ensures IsSegment(RedactAll(segments)[i]) && (Ended(segments[i]) ==> Ended(RedactAll(segments)[i]))
    {
      MaskedSegment(segments[i]);
    }
    SplitJoin(RedactAll(segments));
  }

  /** No output segment looks like a secret after trimming, which is how `redact` judges segments. */
  lemma NoSecretLeft(text: string)
    ensures forall i :: 0 <= i < |Split(Redacted(text))| ==> !IsSecretSegment(Split(Redacted(text))[i])
  {
    RedactedSegments(text);
    SplitShape(text);
    forall i | 0 <= i < |Split(text)| ensures !IsSecretSegment(RedactAll(Split(text))[i]) {
      MaskedSegment(Split(text)[i]);
    }
  }

  /** Text is returned unchanged exactly when no segment looks like a secret after trimming. */
  lemma UnchangedIffClean(text: string)
    ensures Redacted(text) == text <==> forall i :: 0 <= i < |Split(text)| ==> !IsSecretSegment(Split(text)[i])
  {
    SplitShape(text);
    if Redacted(text) == text {
      NoSecretLeft(text);
    }
    if forall i :: 0 <= i < |Split(text)| ==> !IsSecretSegment(Split(text)[i]) {
      assert RedactAll(Split(text)) == Split(text);
    }
  }

  lemma OneSegment(s: string)
    requires IsSegment(s)
    ensures Split(s) == [s]
  {
    assert Join([s]) == s + Join([]) == s;
    SplitJoin([s]);
  }

  /** Redaction is local: text can be redacted in parts, cut behind any delimiter. */
  lemma RedactionIsLocal(before: string, after: string)
    requires before == "" || Ended(before)
    ensures Redacted(before + after) == Redacted(before) + Redacted(after)
  {
    SplitConcat(before, after);
    assert RedactAll(Split(before) + Split(after)) == RedactAll(Split(before)) + RedactAll(Split(after));
    JoinConcat(RedactAll(Split(before)), RedactAll(Split(after)));
  }

  lemma {:induction false} FewAlphanumerics(s: string)
    ensures AlphanumericCount(s) <= |s|
  {
    if s != [] { FewAlphanumerics(s[1..]); }
  }

  lemma BracketIsHarmless(s: string)
    requires 0 < |s| < 36 && s[0] == '['
    ensures !LooksLikeSecret(s)
  {
    FewAlphanumerics(s);
  }

  lemma MaskLooksHarmless(s: string)
    requires IsSecretSegment(s)
    ensures !LooksLikeSecret(RedactSegment(s))
  {
    MaskCharacters();
    BracketIsHarmless(RedactSegment(s));
  }

  /** Untrimmed, an output segment looks like a secret exactly when it did before and trimming hid it: such a segment
      owes its length to the characters that trimming removes. */
  lemma SecretOnlyUntrimmed(text: string, i: nat)
    requires i < |Split(text)|
    ensures |Split(Redacted(text))| == |Split(text)|
    ensures LooksLikeSecret(Split(Redacted(text))[i]) <==>
      (LooksLikeSecret(Split(text)[i]) && !LooksLikeSecret(Trim(Split(text)[i])))
  {
    RedactedSegments(text);
    var s := Split(text)[i];
    if IsSecretSegment(s) { MaskLooksHarmless(s); }
  }

  const HIDDEN: string := "sk-123456789 "

  lemma HiddenCharacters()
    ensures |HIDDEN| == 13 && "sk-" <= HIDDEN
    ensures forall j :: 0 <= j < 12 ==>
      HIDDEN[j] == 's' || HIDDEN[j] == 'k' || HIDDEN[j] == '-' || '1' <= HIDDEN[j] <= '9'
  {
  }

  lemma PlainIsNoDelimiter(c: char)
    requires c == 's' || c == 'k' || c == '-' || '1' <= c <= '9'
    ensures !IsDelimiter(c)
  {
  }

  lemma HiddenIsSegment()
    ensures IsSegment(HIDDEN)
  {
    HiddenCharacters();
    forall j | 0 <= j < 12 ensures !IsDelimiter(HIDDEN[j]) {
      PlainIsNoDelimiter(HIDDEN[j]);
    }
  }

  lemma LongKeyLooksSecret(s: string)
    requires "sk-" <= s && |s| > 12 && forall i :: 0 <= i < |s| ==> s[i] as int < 0x80
    ensures LooksLikeSecret(s)
  {
    ByteLengthAscii(s);
  }

  lemma TrimOneDelimiter(s: string, d: char)
    requires s != [] && !IsTrimmed(s[0]) && !IsTrimmed(s[|s| - 1]) && IsTrimmed(d)
    ensures Trim(s + [d]) == s
  {
    var t := s + [d];
    assert t[0] == s[0] && t[|s|] == d && t[..|s|] == s;
    assert TrimLeft(t) == t && TrimRight(t) == TrimRight(s) == s;
  }

  lemma ShortIsHarmless(s: string)
    requires |s| <= 12 && forall i :: 0 <= i < |s| ==> s[i] as int < 0x80
    ensures !LooksLikeSecret(s)
  {
    ByteLengthAscii(s);
  }

  lemma HiddenTrimmed()
    ensures !IsSecretSegment(HIDDEN)
  {
    var key := "sk-123456789";
    assert HIDDEN == key + [' '];
    TrimOneDelimiter(key, ' ');
    ShortIsHarmless(key);
  }

  /** There are such segments: twelve bytes of a key and the delimiter that makes them thirteen. */
  lemma DelimiterCanHide()
    ensures Split(HIDDEN) == [HIDDEN] && Redacted(HIDDEN) == HIDDEN && LooksLikeSecret(HIDDEN)
  {
    HiddenIsSegment();
    OneSegment(HIDDEN);
    HiddenCharacters();
    LongKeyLooksSecret(HIDDEN);
    HiddenTrimmed();
    UnchangedIffClean(HIDDEN);
  }

  /** Separators that logged text uses around values. */
  const SEPARATORS: set<char> := {' ', '\t', '\n', '"', '\'', '='}

  predicate IsPadding(s: string) {
    forall i :: 0 <= i < |s| ==> s[i] in {',', '{', '}'}
  }

  /** Letters, digits and the punctuation of keys. */
  predicate IsKeyText(s: string) {
    s != "" && forall i :: 0 <= i < |s| ==>
      '0' <= s[i] <= '9' || 'A' <= s[i] <= 'Z' || 'a' <= s[i] <= 'z' || s[i] in {'-', '_', '.'}
  }

  lemma KeyCharacter(c: char)
    requires '0' <= c <= '9' || 'A' <= c <= 'Z' || 'a' <= c <= 'z' || c in {'-', '_', '.'}
    ensures !IsTrimmed(c)
  {
  }

  lemma PaddingCharacter(c: char)
    requires c in {',', '{', '}'}
    ensures IsTrimmed(c) && !IsDelimiter(c)
  {
  }

  lemma CoreIsUnique(s: string, i: nat, j: nat, a: nat, b: nat)
    requires i <= j <= |s| && a < b <= |s|
    requires forall k :: 0 <= k < |s| && (k < i || k >= j) ==> IsTrimmed(s[k])
    requires i < j ==> !IsTrimmed(s[i]) && !IsTrimmed(s[j - 1])
    requires forall k :: a <= k < b ==> !IsTrimmed(s[k])
    requires forall k :: 0 <= k < |s| && (k < a || k >= b) ==> IsTrimmed(s[k])
    ensures i == a && j == b
  {
    assert !IsTrimmed(s[a]) && !IsTrimmed(s[b - 1]);
  }

  lemma TrimPadded(left: string, key: string, right: string, d: char)
    requires IsPadding(left) && IsKeyText(key) && IsPadding(right) && d in SEPARATORS
    ensures Trim(left + key + right + [d]) == key
  {
    var s := left + key + right + [d];
    forall k | 0 <= k < |left| ensures IsTrimmed(s[k]) { PaddingCharacter(left[k]); }
    forall k | |left| <= k < |left| + |key| ensures !IsTrimmed(s[k]) { KeyCharacter(key[k - |left|]); }
    forall k | |left| + |key| <= k < |s| ensures IsTrimmed(s[k]) {
      if k < |s| - 1 { PaddingCharacter(right[k - |left| - |key|]); }
    }
    var i, j := TrimShape(s);
    CoreIsUnique(s, i, j, |left|, |left| + |key|);
    assert s[|left|..|left| + |key|] == key;
  }

  lemma PaddedIsSegment(left: string, key: string, right: string, d: char)
    requires IsPadding(left) && IsKeyText(key) && IsPadding(right) && d in SEPARATORS
    ensures IsSegment(left + key + right + [d]) && Ended(left + key + right + [d])
  {
    var s := left + key + right + [d];
    forall k | 0 <= k < |s| - 1 ensures !IsDelimiter(s[k]) {
      if k < |left| { PaddingCharacter(left[k]); }
      else if k < |left| + |key| { KeyCharacter(key[k - |left|]); }
      else { PaddingCharacter(right[k - |left| - |key|]); }
    }
  }

  lemma RedactedOne(s: string)
    requires Split(s) == [s]
    ensures Redacted(s) == RedactSegment(s)
  {
    assert RedactAll([s]) == [RedactSegment(s)];
    assert Join([RedactSegment(s)]) == RedactSegment(s) + Join([]);
  }

  lemma PaddedSecret(left: string, key: string, right: string, d: char)
    requires IsPadding(left) && IsKeyText(key) && LooksLikeSecret(key) && IsPadding(right) && d in SEPARATORS
    ensures Redacted(left + key + right + [d]) == "[REDACTED]" + [d]
  {
    var s := left + key + right + [d];
    TrimPadded(left, key, right, d);
    PaddedIsSegment(left, key, right, d);
    OneSegment(s);
    RedactedOne(s);
    assert s[|s| - 1] == d;
  }

  lemma SeparatorEnds(s: string)
    requires s != "" && s[|s| - 1] in SEPARATORS
    ensures Ended(s)
  {
  }

  lemma {:induction false} BetweenDelimiters(before: string, s: string, after: string)
    requires (before == "" || Ended(before)) && Ended(s)
    ensures Redacted(before + s + after) == Redacted(before) + Redacted(s) + Redacted(after)
  {
    var both := before + s;
    assert both[|both| - 1] == s[|s| - 1];
    RedactionIsLocal(both, after);
    RedactionIsLocal(before, s);
  }

  lemma {:induction false} BetweenSeparators(before: string, s: string, after: string)
    requires (before == "" || before[|before| - 1] in SEPARATORS) && Ended(s)
    ensures Redacted(before + s + after) == Redacted(before) + Redacted(s) + Redacted(after)
  {
    if before != "" { SeparatorEnds(before); }
    BetweenDelimiters(before, s, after);
  }

  /** Wherever a secret stands between separators, with or without commas and braces around it, it is masked, the
      separator is kept, and the text before and behind it is redacted on its own. */
  lemma SecretIsMasked(before: string, left: string, key: string, right: string, d: char, after: string)
    requires before == "" || before[|before| - 1] in SEPARATORS
    requires IsPadding(left) && IsKeyText(key) && LooksLikeSecret(key) && IsPadding(right) && d in SEPARATORS
    ensures Redacted(before + (left + key + right + [d]) + after) ==
      Redacted(before) + ("[REDACTED]" + [d]) + Redacted(after)
  {
    PaddedSecret(left, key, right, d);
    PaddedIsSegment(left, key, right, d);
    BetweenSeparators(before, left + key + right + [d], after);
  }

  /** Redacting twice is redacting once. */
  lemma RedactIsIdempotent(text: string)
    ensures Redacted(Redacted(text)) == Redacted(text)
  {
    NoSecretLeft(text);
    UnchangedIffClean(Redacted(text));
  }
}
