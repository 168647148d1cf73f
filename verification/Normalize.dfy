/** Normalised text and the fallback fingerprint of a posting (internal/job/normalize.go). */
module Normalize {

  // Words

  /** Unicode white space, as strings.Fields splits on it. */
  predicate IsSpace(c: char) {
    var n := c as int;
    || 0x09 <= n <= 0x0D || n == 0x20 || n == 0x85 || n == 0xA0 || n == 0x1680 || 0x2000 <= n <= 0x200A
    || n == 0x2028 || n == 0x2029 || n == 0x202F || n == 0x205F || n == 0x3000
  }

  predicate IsWord(w: string) {
    w != "" && forall c | c in w :: !IsSpace(c)
  }

  /** Length of the leading run of non-space characters. */
  function WordLength(s: string): (n: nat)
    ensures n <= |s| && (forall i | 0 <= i < n :: !IsSpace(s[i])) && (n < |s| ==> IsSpace(s[n]))
  {
    if s == "" || IsSpace(s[0]) then 0 else 1 + WordLength(s[1..])
  }

  function Words(s: string): (ws: seq<string>)
    ensures forall w | w in ws :: IsWord(w)
    ensures forall w, c | w in ws && c in w :: c in s
    decreases |s|
  {
    if s == "" then []
    else if IsSpace(s[0]) then Words(s[1..])
    else
      var n := WordLength(s);
      [s[..n]] + Words(s[n..])
  }

  function Join(ws: seq<string>): string {
    if ws == [] then "" else if |ws| == 1 then ws[0] else ws[0] + " " + Join(ws[1..])
  }

  function NormalizeText(s: string): string {
    Join(Words(s))
  }

  lemma {:induction false} WordLengthOf(w: string, rest: string)
    requires IsWord(w) && (rest == "" || IsSpace(rest[0]))
    ensures WordLength(w + rest) == |w|
    decreases |w|
  {
    var s := w + rest;
    var n := WordLength(s);
    assert forall i | 0 <= i < |w| :: s[i] in w;
    assert rest != "" ==> s[|w|] == rest[0];
  }

  lemma {:induction false} WordsOfJoin(ws: seq<string>)
    requires forall w | w in ws :: IsWord(w)
    ensures Words(Join(ws)) == ws
    decreases |ws|
  {
    if |ws| == 1 {
      WordLengthOf(ws[0], "");
      assert ws[0] + "" == ws[0] && ws[0][0] in ws[0];
    } else if |ws| > 1 {
      var rest := " " + Join(ws[1..]);
      WordsOfJoin(ws[1..]);
      WordLengthOf(ws[0], rest);
      assert Join(ws) == ws[0] + rest && Join(ws)[|ws[0]|..] == rest && Join(ws)[..|ws[0]|] == ws[0];
      assert ws[0][0] in ws[0] && rest[1..] == Join(ws[1..]);
    }
  }

  /** Normalising changes the spacing only, and once is enough. */
  lemma NormalizeKeepsWords(s: string)
    ensures Words(NormalizeText(s)) == Words(s)
    ensures NormalizeText(NormalizeText(s)) == NormalizeText(s)
  {
    WordsOfJoin(Words(s));
  }

  /** Two texts normalise alike exactly when they have the same words. */
  lemma NormalizeIff(s: string, t: string)
    ensures NormalizeText(s) == NormalizeText(t) <==> Words(s) == Words(t)
  {
    WordsOfJoin(Words(s));
    WordsOfJoin(Words(t));
  }

  // Case folding

  /** What unicode.ToLower does to the separator and to white space: nothing, and no other
      character becomes one of them. */
  ghost predicate Folds(lower: char -> char) {
    && lower(' ') == ' '
    && (forall c :: lower(c) == '|' <==> c == '|')
    && (forall c :: IsSpace(lower(c)) <==> IsSpace(c))
  }

  function Lower(lower: char -> char, s: string): string {
    if s == "" then "" else [lower(s[0])] + Lower(lower, s[1..])
  }

  function LowerWords(lower: char -> char, ws: seq<string>): seq<string> {
    if ws == [] then [] else [Lower(lower, ws[0])] + LowerWords(lower, ws[1..])
  }

  lemma {:induction false} LowerAt(lower: char -> char, s: string)
    ensures |Lower(lower, s)| == |s| && forall i | 0 <= i < |s| :: Lower(lower, s)[i] == lower(s[i])
  {
    if s != "" {
      LowerAt(lower, s[1..]);
    }
  }

  lemma LowerConcat(lower: char -> char, s: string, t: string)
    ensures Lower(lower, s + t) == Lower(lower, s) + Lower(lower, t)
  {
    LowerAt(lower, s);
    LowerAt(lower, t);
    LowerAt(lower, s + t);
  }

  lemma LowerWord(lower: char -> char, w: string)
    requires Folds(lower) && IsWord(w)
    ensures IsWord(Lower(lower, w))
  {
    LowerAt(lower, w);
    forall c | c in Lower(lower, w) ensures !IsSpace(c) {
      var i :| 0 <= i < |Lower(lower, w)| && Lower(lower, w)[i] == c;
      assert w[i] in w;
    }
  }

  lemma {:induction false} LowerOfJoin(lower: char -> char, ws: seq<string>)
    requires Folds(lower) && forall w | w in ws :: IsWord(w)
    ensures Lower(lower, Join(ws)) == Join(LowerWords(lower, ws))
    ensures |LowerWords(lower, ws)| == |ws|
    ensures forall w | w in LowerWords(lower, ws) :: IsWord(w)
    decreases |ws|
  {
    if ws != [] {
      LowerOfJoin(lower, ws[1..]);
      LowerWord(lower, ws[0]);
      if |ws| > 1 {
        LowerConcat(lower, ws[0] + " ", Join(ws[1..]));
        LowerConcat(lower, ws[0], " ");
        assert Lower(lower, " ") == " ";
      }
    }
  }

  lemma LowerNormalizedIff(lower: char -> char, s: string, t: string)
    requires Folds(lower)
    ensures Lower(lower, NormalizeText(s)) == Lower(lower, NormalizeText(t))
       <==> LowerWords(lower, Words(s)) == LowerWords(lower, Words(t))
  {
    LowerOfJoin(lower, Words(s));
    LowerOfJoin(lower, Words(t));
    WordsOfJoin(LowerWords(lower, Words(s)));
    WordsOfJoin(LowerWords(lower, Words(t)));
  }

  // Fingerprints

  /** The lower-casing and hash functions the program is built with. */
  datatype Hashing = Hashing(lower: char -> char, sha: string -> string)

  ghost predicate CollisionFree(h: Hashing) {
    forall a, b :: h.sha(a) == h.sha(b) ==> a == b
  }

  function FingerprintKey(source: string, company: string, title: string, location: string): string {
    source + "|" + (company + "|" + (title + "|" + location))
  }

  function Fingerprint(h: Hashing, source: string, company: string, title: string, location: string): string {
    h.sha(Lower(h.lower, FingerprintKey(source, company, title, location)))
  }

  datatype RawJob = RawJob(
    sourceJobId: string, url: string, company: string, title: string, location: string,
    description: string, fields: map<string, string>)

  function FingerprintOf(h: Hashing, source: string, raw: RawJob): string {
    Fingerprint(h, source, NormalizeText(raw.company), NormalizeText(raw.title), NormalizeText(raw.location))
  }

  predicate PipeFree(s: string) {
    '|' !in s
  }

  lemma FirstPipe(a: string, x: string)
    requires PipeFree(a)
    ensures var s := a + "|" + x; s[|a|] == '|' && forall i | 0 <= i < |a| :: s[i] != '|'
  {
    var s := a + "|" + x;
    forall i | 0 <= i < |a| ensures s[i] != '|' {
      assert s[i] == a[i];
    }
  }

  lemma SplitAtPipe(a: string, x: string, b: string, y: string)
    requires PipeFree(a) && PipeFree(b) && a + "|" + x == b + "|" + y
    ensures a == b && x == y
  {
    var s := a + "|" + x;
    var t := b + "|" + y;
    FirstPipe(a, x);
    FirstPipe(b, y);
    assert s[..|a|] == a && t[..|b|] == b;
    assert s[|a| + 1..] == x && t[|b| + 1..] == y;
  }

  lemma LowerPipeFree(lower: char -> char, s: string)
    requires Folds(lower) && PipeFree(s)
    ensures PipeFree(Lower(lower, s))
  {
    LowerAt(lower, s);
  }

  lemma {:induction false} JoinPipeFree(ws: seq<string>)
    requires forall w | w in ws :: PipeFree(w)
    ensures PipeFree(Join(ws))
    decreases |ws|
  {
    if ws != [] {
      JoinPipeFree(ws[1..]);
      assert PipeFree(ws[0]);
    }
  }

  lemma NormalizedPipeFree(lower: char -> char, s: string)
    requires Folds(lower) && PipeFree(s)
    ensures PipeFree(Lower(lower, NormalizeText(s)))
  {
    JoinPipeFree(Words(s));
    LowerPipeFree(lower, NormalizeText(s));
  }

  lemma LowerOfKey(lower: char -> char, a: string, b: string, c: string, d: string)
    requires Folds(lower)
    ensures Lower(lower, FingerprintKey(a, b, c, d))
         == FingerprintKey(Lower(lower, a), Lower(lower, b), Lower(lower, c), Lower(lower, d))
  {
    var bar := "|";
    assert Lower(lower, bar) == bar;
    LowerConcat(lower, a + bar, b + bar + (c + bar + d));
    LowerConcat(lower, a, bar);
    LowerConcat(lower, b + bar, c + bar + d);
    LowerConcat(lower, b, bar);
    LowerConcat(lower, c + bar, d);
    LowerConcat(lower, c, bar);
    assert FingerprintKey(a, b, c, d) == (a + bar) + (b + bar + (c + bar + d));
  }

  lemma KeyInjective(a: string, b: string, c: string, d: string, a2: string, b2: string, c2: string, d2: string)
    requires PipeFree(a) && PipeFree(b) && PipeFree(c) && PipeFree(a2) && PipeFree(b2) && PipeFree(c2)
    requires FingerprintKey(a, b, c, d) == FingerprintKey(a2, b2, c2, d2)
    ensures a == a2 && b == b2 && c == c2 && d == d2
  {
    SplitAtPipe(a, b + "|" + (c + "|" + d), a2, b2 + "|" + (c2 + "|" + d2));
    SplitAtPipe(b, c + "|" + d, b2, c2 + "|" + d2);
    SplitAtPipe(c, d, c2, d2);
  }

  /** Same source up to case, and company, title and location with the same words up to case. */
  predicate SamePosting(lower: char -> char, source: string, raw: RawJob, source2: string, raw2: RawJob) {
    && Lower(lower, source) == Lower(lower, source2)
    && LowerWords(lower, Words(raw.company)) == LowerWords(lower, Words(raw2.company))
    && LowerWords(lower, Words(raw.title)) == LowerWords(lower, Words(raw2.title))
    && LowerWords(lower, Words(raw.location)) == LowerWords(lower, Words(raw2.location))
  }

  predicate PipeFreePosting(source: string, raw: RawJob) {
    PipeFree(source) && PipeFree(raw.company) && PipeFree(raw.title)
  }

  lemma FingerprintKeys(h: Hashing, source: string, raw: RawJob)
    requires Folds(h.lower)
    ensures FingerprintOf(h, source, raw) == h.sha(FingerprintKey(
              Lower(h.lower, source), Lower(h.lower, NormalizeText(raw.company)),
              Lower(h.lower, NormalizeText(raw.title)), Lower(h.lower, NormalizeText(raw.location))))
  {
    LowerOfKey(h.lower, source, NormalizeText(raw.company), NormalizeText(raw.title), NormalizeText(raw.location));
  }

  /** The same posting always gets the same fingerprint. */
  lemma SamePostingSameFingerprint(h: Hashing, source: string, raw: RawJob, source2: string, raw2: RawJob)
    requires Folds(h.lower) && SamePosting(h.lower, source, raw, source2, raw2)
    ensures FingerprintOf(h, source, raw) == FingerprintOf(h, source2, raw2)
  {
    FingerprintKeys(h, source, raw);
    FingerprintKeys(h, source2, raw2);
    LowerNormalizedIff(h.lower, raw.company, raw2.company);
    LowerNormalizedIff(h.lower, raw.title, raw2.title);
    LowerNormalizedIff(h.lower, raw.location, raw2.location);
  }

  /** Without a separator in the first three fields, and with a hash that does not collide, equal
      fingerprints mean the same posting, and only they do. */
  lemma FingerprintIff(h: Hashing, source: string, raw: RawJob, source2: string, raw2: RawJob)
    requires Folds(h.lower) && CollisionFree(h)
    requires PipeFreePosting(source, raw) && PipeFreePosting(source2, raw2)
    ensures FingerprintOf(h, source, raw) == FingerprintOf(h, source2, raw2)
       <==> SamePosting(h.lower, source, raw, source2, raw2)
  {
    if SamePosting(h.lower, source, raw, source2, raw2) {
      SamePostingSameFingerprint(h, source, raw, source2, raw2);
    }
    if FingerprintOf(h, source, raw) == FingerprintOf(h, source2, raw2) {
      FingerprintKeys(h, source, raw);
      FingerprintKeys(h, source2, raw2);
      LowerPipeFree(h.lower, source);
      LowerPipeFree(h.lower, source2);
      NormalizedPipeFree(h.lower, raw.company);
      NormalizedPipeFree(h.lower, raw2.company);
      NormalizedPipeFree(h.lower, raw.title);
      NormalizedPipeFree(h.lower, raw2.title);
      KeyInjective(
        Lower(h.lower, source), Lower(h.lower, NormalizeText(raw.company)),
        Lower(h.lower, NormalizeText(raw.title)), Lower(h.lower, NormalizeText(raw.location)),
        Lower(h.lower, source2), Lower(h.lower, NormalizeText(raw2.company)),
        Lower(h.lower, NormalizeText(raw2.title)), Lower(h.lower, NormalizeText(raw2.location)));
      LowerNormalizedIff(h.lower, raw.company, raw2.company);
      LowerNormalizedIff(h.lower, raw.title, raw2.title);
      LowerNormalizedIff(h.lower, raw.location, raw2.location);
    }
  }

  /** A separator may stand on either side of a field boundary. */
  lemma SeparatorShifts(h: Hashing, a: string, b: string, c: string, d: string, e: string)
    ensures Fingerprint(h, a + "|" + b, c, d, e) == Fingerprint(h, a, b + "|" + c, d, e)
    ensures Fingerprint(h, a, b + "|" + c, d, e) == Fingerprint(h, a, b, c + "|" + d, e)
  {
    assert FingerprintKey(a + "|" + b, c, d, e) == FingerprintKey(a, b + "|" + c, d, e);
    assert FingerprintKey(a, b + "|" + c, d, e) == FingerprintKey(a, b, c + "|" + d, e);
  }

  lemma WordIsNormal(w: string)
    requires IsWord(w)
    ensures NormalizeText(w) == w && Words(w) == [w]
  {
    assert Join([w]) == w;
    WordsOfJoin([w]);
  }

  lemma OneLowerWord(lower: char -> char, w: string)
    ensures LowerWords(lower, [w]) == [Lower(lower, w)] && |Lower(lower, w)| == |w|
  {
    LowerAt(lower, w);
    assert [w][1..] == [];
  }

  /** Two postings that differ get the same fingerprint, whatever the hash, when a separator stands in
      the company of the one and in the title of the other. */
  lemma SeparatorCollides(h: Hashing, source: string, raw: RawJob, raw2: RawJob, a: string, b: string, c: string)
    requires IsWord(a) && IsWord(b) && IsWord(c)
    requires raw.company == a + "|" + b && raw.title == c
    requires raw2.company == a && raw2.title == b + "|" + c && raw2.location == raw.location
    ensures FingerprintOf(h, source, raw) == FingerprintOf(h, source, raw2)
    ensures !SamePosting(h.lower, source, raw, source, raw2)
  {
    WordIsNormal(a);
    WordIsNormal(c);
    WordIsNormal(a + "|" + b);
    WordIsNormal(b + "|" + c);
    SeparatorShifts(h, source, a, b, c, NormalizeText(raw.location));
    OneLowerWord(h.lower, a);
    OneLowerWord(h.lower, a + "|" + b);
  }
}
