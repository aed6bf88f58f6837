/** Resource names: safeDNSLabel turns any cluster and instance names into one DNS label
    (section 2.1 of RFC 1123, section 2.3.4 of RFC 1035). */
module DnsLabel {

  const MAX_LENGTH := 63
  const HASH_LENGTH := 10

  /** Lower-casing, as far as it can produce a letter a label may hold: other characters outside a-z and
      0-9 stay outside, whatever their case. */
  function Lower(c: char): char {
    if 'A' <= c <= 'Z' then c - 'A' + 'a'
    else if c == '\U{0130}' then 'i'
    else if c == '\U{212A}' then 'k'
    else c
  }

  predicate Allowed(c: char) { 'a' <= c <= 'z' || '0' <= c <= '9' }

  predicate EndsInDash(s: string) { s != "" && s[|s| - 1] == '-' }

  /** Everything that is not allowed becomes a dash, runs of dashes become one. */
  function Collapse(s: string): string {
    if s == "" then ""
    else
      var rest, c := Collapse(s[..|s| - 1]), Lower(s[|s| - 1]);
      if Allowed(c) then rest + [c] else if EndsInDash(rest) then rest else rest + "-"
  }

  function TrimRight(s: string): string {
    if EndsInDash(s) then TrimRight(s[..|s| - 1]) else s
  }

  function TrimLeft(s: string): string {
    if s != "" && s[0] == '-' then TrimLeft(s[1..]) else s
  }

  function Normalize(s: string): string {
    var result := TrimRight(TrimLeft(Collapse(s)));
    if result == "" then "x" else result
  }

  lemma TakeChar(s: string, i: nat)
    requires i < |s|
    ensures s[..i + 1][..i] == s[..i]
  {
  }

  /** normalizeDNSLabel: one pass that remembers whether it has just written a dash. */
  method NormalizeLabel(value: string) returns (result: string)
    ensures result == Normalize(value)
  {
    var built, lastDash := "", false;
    for i := 0 to |value|
      invariant built == Collapse(value[..i])
      invariant lastDash == EndsInDash(built)
    {
      TakeChar(value, i);
      var c := Lower(value[i]);
      if Allowed(c) {
        built, lastDash := built + [c], false;
      } else if !lastDash {
        built, lastDash := built + "-", true;
      }
    }
    assert value[..|value|] == value;
    var start, end := 0, |built|;
    while start < end && built[start] == '-'
      invariant 0 <= start <= end == |built|
      invariant TrimLeft(built[start..]) == TrimLeft(built)
    {
      assert built[start..][1..] == built[start + 1..];
      start := start + 1;
    }
    var trimmed := built[start..];
    end := |trimmed|;
    assert trimmed[..end] == trimmed;
    while end > 0 && trimmed[end - 1] == '-'
      invariant 0 <= end <= |trimmed|
      invariant TrimRight(trimmed[..end]) == TrimRight(trimmed)
    {
      assert trimmed[..end][..end - 1] == trimmed[..end - 1];
      end := end - 1;
    }
    result := if end == 0 then "x" else trimmed[..end];
  }

  // ---------------------------------------------------------------- what a normalised label is

  /** The maximal runs of allowed characters, lower-cased, in order. */
  function Words(s: string): seq<string> {
    if s == "" then []
    else
      var rest, c := Words(s[..|s| - 1]), Lower(s[|s| - 1]);
      if !Allowed(c) then rest
      else if |s| > 1 && Allowed(Lower(s[|s| - 2])) && rest != [] then rest[..|rest| - 1] + [rest[|rest| - 1] + [c]]
      else rest + [[c]]
  }

  function Join(words: seq<string>): string {
    if words == [] then ""
    else if |words| == 1 then words[0]
    else Join(words[..|words| - 1]) + "-" + words[|words| - 1]
  }

  function Lead(s: string): string { if s != "" && !Allowed(Lower(s[0])) then "-" else "" }

  function Trail(s: string): string {
    if Words(s) != [] && !Allowed(Lower(s[|s| - 1])) then "-" else ""
  }

  lemma JoinAppend(words: seq<string>, w: string)
    ensures Join(words + [w]) == if words == [] then w else Join(words) + "-" + w
  {
    assert (words + [w])[..|words|] == words;
  }

  lemma JoinExtend(words: seq<string>, c: char)
    requires words != []
    ensures Join(words[..|words| - 1] + [words[|words| - 1] + [c]]) == Join(words) + [c]
  {
    var front, w := words[..|words| - 1], words[|words| - 1];
    assert words == front + [w];
    JoinAppend(front, w);
    JoinAppend(front, w + [c]);
    Regroup(Join(front) + "-", w, [c]);
  }

  lemma Regroup(a: string, b: string, c: string)
    ensures a + (b + c) == a + b + c
  {
  }

  lemma {:induction false} AllowedEndsWord(s: string)
    requires s != "" && Allowed(Lower(s[|s| - 1]))
    ensures Words(s) != []
  {
    if |s| > 1 && Allowed(Lower(s[|s| - 2])) { AllowedEndsWord(s[..|s| - 1]); }
  }

  ghost predicate NoOuterDash(s: string) { s != "" && s[|s| - 1] != '-' && s[0] != '-' }

  lemma OneMoreLetter(words: seq<string>, c: char)
    requires Allowed(c) && (words != [] ==> NoOuterDash(Join(words)))
    ensures NoOuterDash(Join(words + [[c]]))
    ensures words != [] ==> NoOuterDash(Join(words[..|words| - 1] + [words[|words| - 1] + [c]]))
  {
    JoinAppend(words, [c]);
    if words != [] { JoinExtend(words, c); }
  }

  lemma {:induction false} JoinEndsAllowed(s: string)
    ensures Words(s) != [] ==> NoOuterDash(Join(Words(s)))
    decreases |s|
  {
    if s != "" {
      var init, c := s[..|s| - 1], Lower(s[|s| - 1]);
      JoinEndsAllowed(init);
      if Allowed(c) { OneMoreLetter(Words(init), c); }
    }
  }

  lemma {:induction false} FirstAllowedStartsWord(s: string)
    requires s != "" && Allowed(Lower(s[0]))
    ensures Words(s) != []
    decreases |s|
  {
    if |s| > 1 { FirstAllowedStartsWord(s[..|s| - 1]); }
  }

  lemma CollapseNewWord(s: string)
    requires |s| > 1 && Allowed(Lower(s[|s| - 1])) && !Allowed(Lower(s[|s| - 2]))
    requires var init := s[..|s| - 1]; Collapse(init) == Lead(init) + Join(Words(init)) + Trail(init)
    ensures Collapse(s) == Lead(s) + Join(Words(s)) + Trail(s)
  {
    var init, c := s[..|s| - 1], Lower(s[|s| - 1]);
    JoinAppend(Words(init), [c]);
    assert Words(s) == Words(init) + [[c]] && Trail(s) == "" && Lead(s) == Lead(init);
    if Words(init) != [] {
      assert Trail(init) == "-";
      assert Lead(init) + Join(Words(init)) + "-" + [c] == Lead(s) + (Join(Words(init)) + "-" + [c]);
    }
  }

  lemma CollapseLongerWord(s: string)
    requires |s| > 1 && Allowed(Lower(s[|s| - 1])) && Allowed(Lower(s[|s| - 2]))
    requires var init := s[..|s| - 1]; Collapse(init) == Lead(init) + Join(Words(init)) + Trail(init)
    ensures Collapse(s) == Lead(s) + Join(Words(s)) + Trail(s)
  {
    var init, c := s[..|s| - 1], Lower(s[|s| - 1]);
    AllowedEndsWord(init);
    JoinExtend(Words(init), c);
    assert Trail(init) == "" && Trail(s) == "" && Lead(s) == Lead(init);
  }

  lemma CollapseOther(s: string)
    requires s != "" && !Allowed(Lower(s[|s| - 1]))
    requires var init := s[..|s| - 1]; Collapse(init) == Lead(init) + Join(Words(init)) + Trail(init)
    ensures Collapse(s) == Lead(s) + Join(Words(s)) + Trail(s)
  {
    var init := s[..|s| - 1];
    assert Words(s) == Words(init);
    if |s| > 1 {
      assert Lead(s) == Lead(init);
      if Words(init) == [] {
        if Allowed(Lower(init[0])) { FirstAllowedStartsWord(init); }
        assert Collapse(init) == "-";
      } else {
        JoinEndsAllowed(init);
        assert EndsInDash(Collapse(init)) <==> Trail(init) == "-";
      }
    }
  }

  lemma {:induction false} CollapseIsJoin(s: string)
    ensures Collapse(s) == Lead(s) + Join(Words(s)) + Trail(s)
    decreases |s|
  {
    if s != "" {
      CollapseIsJoin(s[..|s| - 1]);
      if !Allowed(Lower(s[|s| - 1])) { CollapseOther(s); }
      else if |s| == 1 { assert Words(s) == [[Lower(s[0])]]; }
      else if Allowed(Lower(s[|s| - 2])) { CollapseLongerWord(s); }
      else { CollapseNewWord(s); }
    }
  }

  lemma TrimLeftOnce(s: string)
    requires s == "" || s[0] != '-'
    ensures TrimLeft(s) == s && TrimLeft("-" + s) == s
  {
    assert ("-" + s)[1..] == s;
  }

  lemma TrimRightOnce(s: string)
    requires !EndsInDash(s)
    ensures TrimRight(s) == s && TrimRight(s + "-") == s
  {
    assert (s + "-")[..|s|] == s;
  }

  /** A normalised label is the words of the text joined by single dashes, or "x" without any word. */
  lemma NormalizeJoinsWords(s: string)
    ensures Normalize(s) == if Words(s) == [] then "x" else Join(Words(s))
  {
    CollapseIsJoin(s);
    JoinEndsAllowed(s);
    var body := Join(Words(s));
    var middle := body + Trail(s);
    assert Collapse(s) == Lead(s) + middle;
    TrimLeftOnce(middle);
    TrimRightOnce(body);
    assert Lead(s) == "" ==> Lead(s) + middle == middle;
    assert Trail(s) == "" ==> body + Trail(s) == body;
  }

  // ---------------------------------------------------------------- the final name

  function JoinParts(parts: seq<string>): string {
    if parts == [] then "" else if |parts| == 1 then parts[0] else parts[0] + "-" + JoinParts(parts[1..])
  }

  /** The hex digest of a name, at least as long as the part that is used; SHA-1 in the operator. */
  ghost predicate IsDigest(hash: string -> string) {
    forall s :: |hash(s)| >= HASH_LENGTH && forall c :: c in hash(s) ==> Allowed(c)
  }

  /** safeDNSLabel. */
  function SafeLabel(hash: string -> string, parts: seq<string>): string
    requires forall s :: |hash(s)| >= HASH_LENGTH
  {
    var raw := JoinParts(parts);
    var normalized := Normalize(raw);
    if |normalized| <= MAX_LENGTH then normalized
    else
      var prefix := TrimRight(normalized[..MAX_LENGTH - HASH_LENGTH - 1]);
      (if prefix == "" then "x" else prefix) + "-" + hash(raw)[..HASH_LENGTH]
  }

  /** Only allowed characters and single dashes. */
  ghost predicate Clean(s: string) {
    && (forall i :: 0 <= i < |s| ==> Allowed(s[i]) || s[i] == '-')
    && (forall i, j :: 0 <= i && j == i + 1 && j < |s| && s[i] == '-' ==> s[j] != '-')
  }

  ghost predicate Tight(s: string) {
    s != "" && s[0] != '-' && s[|s| - 1] != '-' && Clean(s)
  }

  lemma CleanAppend(s: string, c: char)
    requires Clean(s) && (Allowed(c) || (c == '-' && !EndsInDash(s)))
    ensures Clean(s + [c])
  {
  }

  lemma CleanSlice(s: string, i: nat, j: nat)
    requires Clean(s) && i <= j <= |s|
    ensures Clean(s[i..j])
  {
    var r := s[i..j];
    forall a, b | 0 <= a && b == a + 1 && b < |r| && r[a] == '-' ensures r[b] != '-' {
      assert s[i + a] == '-' && s[i + b] == r[b];
    }
  }

  lemma {:induction false} CollapseClean(s: string)
    ensures Clean(Collapse(s))
  {
    if s != "" {
      var rest, c := Collapse(s[..|s| - 1]), Lower(s[|s| - 1]);
      CollapseClean(s[..|s| - 1]);
      if Allowed(c) { CleanAppend(rest, c); } else if !EndsInDash(rest) { CleanAppend(rest, '-'); }
    }
  }

  lemma {:induction false} TrimRightSpec(s: string)
    ensures TrimRight(s) <= s && !EndsInDash(TrimRight(s))
  {
    if EndsInDash(s) { TrimRightSpec(s[..|s| - 1]); }
  }

  lemma {:induction false} TrimLeftSpec(s: string)
    ensures |TrimLeft(s)| <= |s| && TrimLeft(s) == s[|s| - |TrimLeft(s)|..]
    ensures TrimLeft(s) == "" || TrimLeft(s)[0] != '-'
  {
    if s != "" && s[0] == '-' { TrimLeftSpec(s[1..]); }
  }

  lemma NormalizeTight(s: string)
    ensures Tight(Normalize(s))
  {
    var r := Collapse(s);
    CollapseClean(s);
    TrimLeftSpec(r);
    var left := TrimLeft(r);
    CleanSlice(r, |r| - |left|, |r|);
    assert r[|r| - |left|..|r|] == left;
    TrimRightSpec(left);
    CleanSlice(left, 0, |TrimRight(left)|);
    assert left[0..|TrimRight(left)|] == TrimRight(left);
  }

  lemma PrefixTight(s: string, k: nat)
    requires Tight(s) && k <= |s|
    ensures TrimRight(s[..k]) == "" || Tight(TrimRight(s[..k]))
  {
    TrimRightSpec(s[..k]);
    CleanSlice(s, 0, |TrimRight(s[..k])|);
    assert s[0..|TrimRight(s[..k])|] == TrimRight(s[..k]);
  }

  lemma JoinTight(a: string, b: string)
    requires Tight(a) && b != "" && forall c :: c in b ==> Allowed(c)
    ensures Tight(a + "-" + b)
  {
    var r := a + "-" + b;
    forall i | 0 <= i < |r| ensures Allowed(r[i]) || r[i] == '-' {
      if i > |a| { assert r[i] in b; }
    }
    forall i, j | 0 <= i && j == i + 1 && j < |r| && r[i] == '-' ensures r[j] != '-' {
      if i >= |a| { assert r[j] in b; } else if j < |a| { assert a[i] == '-' && r[j] == a[j]; }
    }
    assert r[|r| - 1] in b;
  }

  /** Every name is a DNS label: 1 to 63 characters from a-z, 0-9 and '-', no dash at either end. */
  lemma SafeLabelIsDnsLabel(hash: string -> string, parts: seq<string>)
    requires IsDigest(hash)
    ensures 1 <= |SafeLabel(hash, parts)| <= 63 && Tight(SafeLabel(hash, parts))
  {
    var raw := JoinParts(parts);
    var normalized := Normalize(raw);
    NormalizeTight(raw);
    if |normalized| > MAX_LENGTH {
      var cut := normalized[..MAX_LENGTH - HASH_LENGTH - 1];
      PrefixTight(normalized, MAX_LENGTH - HASH_LENGTH - 1);
      TrimRightSpec(cut);
      assert forall c :: c in hash(raw)[..HASH_LENGTH] ==> c in hash(raw);
      JoinTight(if TrimRight(cut) == "" then "x" else TrimRight(cut), hash(raw)[..HASH_LENGTH]);
    }
  }

  lemma {:induction false} CollapseOfTight(s: string, k: nat)
    requires Tight(s) && k <= |s|
    ensures Collapse(s[..k]) == s[..k]
    decreases k
  {
    if k > 0 {
      CollapseOfTight(s, k - 1);
      TakeChar(s, k - 1);
      assert s[..k] == s[..k - 1] + [s[k - 1]];
      assert Lower(s[k - 1]) == s[k - 1];
    }
  }

  /** Names are stable: turning a name into a name again gives the same name. */
  lemma SafeLabelIdempotent(hash: string -> string, parts: seq<string>)
    requires IsDigest(hash)
    ensures SafeLabel(hash, [SafeLabel(hash, parts)]) == SafeLabel(hash, parts)
  {
    var s := SafeLabel(hash, parts);
    SafeLabelIsDnsLabel(hash, parts);
    CollapseOfTight(s, |s|);
    assert s[..|s|] == s;
    TrimLeftOnce(s);
    TrimRightOnce(s);
  }

  // ---------------------------------------------------------------- when two names coincide

  /** What a short name remembers of a text. */
  function Identity(s: string): seq<string> { if Words(s) == [] then ["x"] else Words(s) }

  lemma WordsExtend(s: string, c: char)
    requires s != "" && Allowed(Lower(s[|s| - 1])) && Allowed(c)
    ensures Words(s) != [] && Words(s + [c]) == Words(s)[..|Words(s)| - 1] + [Words(s)[|Words(s)| - 1] + [c]]
  {
    AllowedEndsWord(s);
    assert (s + [c])[..|s|] == s && Lower(c) == c;
  }

  lemma WordsAppend(s: string, c: char)
    requires Allowed(c)
    ensures Words(s + "-" + [c]) == Words(s) + [[c]]
  {
    var t := s + "-";
    assert t[..|s|] == s && (t + [c])[..|t|] == t && Lower(c) == c && t[|t| - 1] == '-';
    assert Words(t) == Words(s);
  }

  lemma {:induction false} JoinEndsInLetter(s: string)
    ensures Words(s) != [] ==> EndsInLetter(Join(Words(s)))
    decreases |s|
  {
    if s != "" {
      var init, c := s[..|s| - 1], Lower(s[|s| - 1]);
      JoinEndsInLetter(init);
      if Allowed(c) {
        if |s| > 1 && Allowed(Lower(s[|s| - 2])) && Words(init) != [] {
          JoinExtend(Words(init), c);
          LetterLast(Join(Words(init)), c);
        } else {
          JoinAppend(Words(init), [c]);
          LetterLast(if Words(init) == [] then "" else Join(Words(init)) + "-", c);
        }
      }
    }
  }

  predicate EndsInLetter(s: string) { s != "" && Allowed(Lower(s[|s| - 1])) }

  lemma LetterLast(s: string, c: char)
    requires Allowed(c)
    ensures EndsInLetter(s + [c])
  {
    assert Lower(c) == c;
  }

  /** The words can be read back from the joined text. */
  lemma {:induction false} WordsOfJoin(s: string)
    ensures Words(Join(Words(s))) == Words(s)
    decreases |s|
  {
    if s != "" {
      var init, c := s[..|s| - 1], Lower(s[|s| - 1]);
      WordsOfJoin(init);
      JoinEndsInLetter(init);
      var body := Join(Words(init));
      if Allowed(c) {
        assert Lower(c) == c;
        if |s| > 1 && Allowed(Lower(s[|s| - 2])) && Words(init) != [] {
          JoinExtend(Words(init), c);
          WordsExtend(body, c);
        } else {
          JoinAppend(Words(init), [c]);
          if Words(init) == [] { assert Words([c]) == [[c]]; } else { WordsAppend(body, c); }
        }
      }
    }
  }

  lemma IdentityOfNormalize(s: string)
    ensures Words(Normalize(s)) == Identity(s)
  {
    NormalizeJoinsWords(s);
    if Words(s) == [] { assert "x"[..0] == "" && Words("x") == ["x"]; } else { WordsOfJoin(s); }
  }

  lemma NormalizeOfIdentity(s: string, t: string)
    requires Identity(s) == Identity(t)
    ensures Normalize(s) == Normalize(t)
  {
    NormalizeJoinsWords(s);
    NormalizeJoinsWords(t);
    assert Join(["x"]) == "x";
  }

  /** Distinct instances are not always given distinct names.  Names that fit a label coincide exactly
      when the texts have the same words, so case, punctuation and where one part ends do not count. */
  lemma SameNameIffSameWords(hash: string -> string, p: seq<string>, q: seq<string>)
    requires IsDigest(hash)
    requires |Normalize(JoinParts(p))| <= MAX_LENGTH && |Normalize(JoinParts(q))| <= MAX_LENGTH
    ensures SafeLabel(hash, p) == SafeLabel(hash, q) <==> Identity(JoinParts(p)) == Identity(JoinParts(q))
  {
    IdentityOfNormalize(JoinParts(p));
    IdentityOfNormalize(JoinParts(q));
    if Identity(JoinParts(p)) == Identity(JoinParts(q)) { NormalizeOfIdentity(JoinParts(p), JoinParts(q)); }
  }

  // ---------------------------------------------------------------- names that do not fit

  predicate Fits(parts: seq<string>) { |Normalize(JoinParts(parts))| <= MAX_LENGTH }

  /** What a name that does not fit keeps of the text, and of its digest. */
  function Stem(parts: seq<string>): string
    requires !Fits(parts)
  {
    var prefix := TrimRight(Normalize(JoinParts(parts))[..MAX_LENGTH - HASH_LENGTH - 1]);
    if prefix == "" then "x" else prefix
  }

  function Tag(hash: string -> string, parts: seq<string>): string
    requires forall s :: |hash(s)| >= HASH_LENGTH
  {
    hash(JoinParts(parts))[..HASH_LENGTH]
  }

  lemma LongName(hash: string -> string, parts: seq<string>)
    requires IsDigest(hash) && !Fits(parts)
    ensures SafeLabel(hash, parts) == Stem(parts) + "-" + Tag(hash, parts) && |Tag(hash, parts)| == HASH_LENGTH
  {
  }

  predicate PlainText(s: string) { forall i :: 0 <= i < |s| ==> 'a' <= s[i] <= 'z' || 'A' <= s[i] <= 'Z' || '0' <= s[i] <= '9' }

  /** The same text but for the case of its letters, which is lower. */
  ghost predicate IsLowered(low: string, s: string) {
    |low| == |s| && forall i :: 0 <= i < |s| ==> low[i] == if 'A' <= s[i] <= 'Z' then s[i] + ('a' - 'A') else s[i]
  }

  lemma {:induction false} PlainCollapse(s: string)
    requires PlainText(s)
    ensures IsLowered(Collapse(s), s)
  {
    if s != "" { PlainCollapse(s[..|s| - 1]); }
  }

  /** A text of letters and digits becomes its lower case: in full when it has at most 63 characters, and else its first 52,
      a dash and 10 characters of the digest. */
  lemma PlainName(hash: string -> string, text: string)
    requires IsDigest(hash) && text != "" && PlainText(text)
    ensures var name := SafeLabel(hash, [text]);
            if |text| <= 63 then IsLowered(name, text)
            else |name| == 63 && IsLowered(name[..52], text[..52]) && name[52] == '-' && name[53..] == hash(text)[..10]
  {
    PlainCollapse(text);
    var low := Collapse(text);
    TrimLeftOnce(low);
    TrimRightOnce(low);
    if |text| > 63 { TrimRightOnce(low[..52]); }
  }

  lemma SplitAtEnd(a: string, b: string, x: string, y: string)
    requires |b| == |y|
    ensures a + "-" + b == x + "-" + y <==> a == x && b == y
  {
    var l, r := a + "-" + b, x + "-" + y;
    if l == r {
      assert |l| == |a| + 1 + |b| && |r| == |x| + 1 + |y|;
      assert a == l[..|a|] && x == r[..|x|] && b == l[|a| + 1..] && y == r[|x| + 1..];
    }
  }

  lemma NormalizeOfTight(s: string)
    requires Tight(s)
    ensures Normalize(s) == s
  {
    CollapseOfTight(s, |s|);
    assert s[..|s|] == s;
    TrimLeftOnce(s);
    TrimRightOnce(s);
  }

  /** Exactly when two names coincide, whatever their length: both fit and have the same words, neither fits and both keep
      the same stem and the same piece of digest, or the words of the one that fits are those of the other's name. */
  lemma SameNameIff(hash: string -> string, p: seq<string>, q: seq<string>)
    requires IsDigest(hash)
    ensures SafeLabel(hash, p) == SafeLabel(hash, q) <==>
            if Fits(p) && Fits(q) then Identity(JoinParts(p)) == Identity(JoinParts(q))
            else if !Fits(p) && !Fits(q) then Stem(p) == Stem(q) && Tag(hash, p) == Tag(hash, q)
            else if Fits(p) then Identity(JoinParts(p)) == Words(SafeLabel(hash, q))
            else Identity(JoinParts(q)) == Words(SafeLabel(hash, p))
  {
    if Fits(p) && Fits(q) {
      SameNameIffSameWords(hash, p, q);
    } else if !Fits(p) && !Fits(q) {
      LongName(hash, p);
      LongName(hash, q);
      SplitAtEnd(Stem(p), Tag(hash, p), Stem(q), Tag(hash, q));
    } else if Fits(p) {
      FittingName(hash, p, q);
    } else {
      FittingName(hash, q, p);
    }
  }

  lemma FittingName(hash: string -> string, p: seq<string>, q: seq<string>)
    requires IsDigest(hash) && Fits(p)
    ensures SafeLabel(hash, p) == SafeLabel(hash, q) <==> Identity(JoinParts(p)) == Words(SafeLabel(hash, q))
  {
    var name := SafeLabel(hash, q);
    SafeLabelIsDnsLabel(hash, q);
    NormalizeOfTight(name);
    IdentityOfNormalize(JoinParts(p));
    IdentityOfNormalize(name);
    if Identity(JoinParts(p)) == Words(name) { NormalizeOfIdentity(JoinParts(p), name); }
  }

  // ---------------------------------------------------------------- names inside one cluster

  lemma TightJoin(a: string, b: string)
    requires Tight(a) && Tight(b)
    ensures Tight(a + "-" + b)
  {
    var r := a + "-" + b;
    forall i | 0 <= i < |r| ensures Allowed(r[i]) || r[i] == '-' {
      if i < |a| { assert r[i] == a[i]; } else if i > |a| { assert r[i] == b[i - |a| - 1]; }
    }
    forall i, j | 0 <= i && j == i + 1 && j < |r| && r[i] == '-' ensures r[j] != '-' {
      if j < |a| { assert a[i] == '-' && r[j] == a[j]; }
      else if i > |a| { assert b[i - |a| - 1] == '-' && r[j] == b[j - |a| - 1]; }
      else if i == |a| { assert r[j] == b[0]; }
    }
    assert r[0] == a[0] && r[|r| - 1] == b[|b| - 1];
  }

  /** A name of two well-formed parts that fit is the two joined by a dash, so inside one cluster such names coincide
      only for equal instances. */
  lemma WellFormedName(hash: string -> string, cluster: string, n: string)
    requires IsDigest(hash) && Tight(cluster) && Tight(n) && |cluster| + 1 + |n| <= MAX_LENGTH
    ensures SafeLabel(hash, [cluster, n]) == cluster + "-" + n
  {
    assert [cluster, n][1..] == [n] && JoinParts([n]) == n;
    assert JoinParts([cluster, n]) == cluster + "-" + n;
    TightJoin(cluster, n);
    NormalizeOfTight(cluster + "-" + n);
  }

  /** Two clusters can share an object name. */
  lemma NamesCanCollide(hash: string -> string)
    requires IsDigest(hash)
    ensures SafeLabel(hash, ["a", "b-c"]) == SafeLabel(hash, ["a-b", "c"])
  {
    assert ["a", "b-c"][1..] == ["b-c"] && ["a-b", "c"][1..] == ["c"];
    assert "a" + "-" + "b-c" == "a-b" + "-" + "c";
  }
}
