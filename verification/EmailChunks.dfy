/** Cutting an email body into chunks: the body is cut into sentences, and consecutive
    sentences are packed greedily into chunks of bounded length. */
module EmailChunks {
  import opened Texts

  const MAX_CHUNK_CHARS: nat := 1_000

  function Concat(parts: seq<string>): string {
    if parts == [] then "" else parts[0] + Concat(parts[1..])
  }

  function WordLength(s: string): (n: nat)
    ensures n <= |s| && (forall i :: 0 <= i < n ==> !IsSpace(s[i])) && (n < |s| ==> IsSpace(s[n]))
  {
    if s == "" || IsSpace(s[0]) then 0 else 1 + WordLength(s[1..])
  }

  /** The maximal runs of characters that are not white space. */
  function Words(s: string): seq<string>
    decreases |s|
  {
    if s == "" then []
    else if IsSpace(s[0]) then Words(s[1..])
    else [s[..WordLength(s)]] + Words(s[WordLength(s)..])
  }

  function Join(parts: seq<string>): string {
    if parts == [] then "" else if |parts| == 1 then parts[0] else parts[0] + " " + Join(parts[1..])
  }

  function NormalizeInline(s: string): string { Join(Words(s)) }

  lemma {:induction false} SolidOfSolid(s: string)
    requires forall i :: 0 <= i < |s| ==> !IsSpace(s[i])
    ensures Solid(s) == s
  {
    if s != "" { SolidOfSolid(s[1..]); }
  }

  lemma {:induction false} JoinSolid(parts: seq<string>)
    ensures Solid(Join(parts)) == Solid(Concat(parts))
  {
    if |parts| == 1 {
      assert Concat(parts) == parts[0] + Concat(parts[1..]) == parts[0];
    } else if parts != [] {
      JoinSolid(parts[1..]);
      var first, joined, rest := parts[0], Join(parts[1..]), Concat(parts[1..]);
      assert Join(parts) == first + " " + joined && Concat(parts) == first + rest;
      assert Solid(" ") == "";
      hide Solid, Join, Concat;
      SolidConcat(first + " ", joined);
      SolidConcat(first, " ");
      SolidConcat(first, rest);
    }
  }

  lemma {:induction false} WordsSolid(s: string)
    ensures Concat(Words(s)) == Solid(s)
    decreases |s|
  {
    if s != "" {
      if IsSpace(s[0]) {
        WordsSolid(s[1..]);
      } else {
        var n := WordLength(s);
        WordsSolid(s[n..]);
        assert s == s[..n] + s[n..];
        SolidConcat(s[..n], s[n..]);
        SolidOfSolid(s[..n]);
      }
    }
  }

  /** Normalizing keeps all characters that are not white space, in order. */
  lemma NormalizeKeepsSolid(s: string)
    ensures Solid(NormalizeInline(s)) == Solid(s)
  {
    JoinSolid(Words(s));
    WordsSolid(s);
    SolidTwice(s);
  }

  lemma {:induction false} SolidTwice(s: string)
    ensures Solid(Solid(s)) == Solid(s)
  {
    if s != "" {
      SolidTwice(s[1..]);
      SolidConcat(if IsSpace(s[0]) then "" else [s[0]], Solid(s[1..]));
      if !IsSpace(s[0]) { assert Solid([s[0]]) == [s[0]]; }
    }
  }

  lemma {:induction false} BlankNormalizesToNothing(s: string)
    ensures NormalizeInline(s) == "" <==> Solid(s) == ""
    decreases |s|
  {
    NormalizeKeepsSolid(s);
    if Solid(s) == "" && s != "" {
      assert IsSpace(s[0]);
      BlankNormalizesToNothing(s[1..]);
    }
  }

  /** Cutting a text at white space cuts its words. */
  lemma {:induction false} WordsConcat(x: string, y: string)
    requires x == "" || y == "" || IsSpace(x[|x| - 1]) || IsSpace(y[0])
    ensures Words(x + y) == Words(x) + Words(y)
    decreases |x|
  {
    hide IsSpace, WordLength;
    if x == "" {
      assert x + y == y;
    } else if y == "" {
      assert x + y == x;
    } else {
      FirstWord(x, y);
      var n := if IsSpace(x[0]) then 1 else WordLength(x);
      assert n == |x| ==> x[n..] == "";
      WordsConcat(x[n..], y);
      hide Words;
      if !IsSpace(x[0]) { assert ([x[..n]] + Words(x[n..])) + Words(y) == [x[..n]] + (Words(x[n..]) + Words(y)); }
    }
  }

  /** The words begin alike, whatever follows after white space. */
  lemma FirstWord(x: string, y: string)
    requires x != "" && y != "" && (IsSpace(x[|x| - 1]) || IsSpace(y[0]))
    ensures var n := if IsSpace(x[0]) then 1 else WordLength(x);
      && n > 0
      && Words(x) == (if IsSpace(x[0]) then [] else [x[..n]]) + Words(x[n..])
      && Words(x + y) == (if IsSpace(x[0]) then [] else [x[..n]]) + Words(x[n..] + y)
  {
    hide IsSpace;
    var n := if IsSpace(x[0]) then 1 else WordLength(x);
    assert (x + y)[n..] == x[n..] + y && (x + y)[..n] == x[..n] && (x + y)[0] == x[0];
    if !IsSpace(x[0]) { WordEndsThere(x, y, n); }
  }

  lemma WordEndsThere(x: string, y: string, n: nat)
    requires n == WordLength(x) && y != "" && x != "" && (IsSpace(x[|x| - 1]) || IsSpace(y[0]))
    ensures WordLength(x + y) == n
  {
    hide IsSpace, WordLength;
    var s, m := x + y, WordLength(x + y);
    assert n == |x| ==> !IsSpace(x[|x| - 1]);
    assert IsSpace(s[n]) by { assert s[n] == if n < |x| then x[n] else y[0]; }
    forall i | 0 <= i < n ensures !IsSpace(s[i]) { assert s[i] == x[i]; }
  }

  lemma {:induction false} JoinConcat(a: seq<string>, b: seq<string>)
    requires a != [] && b != []
    ensures Join(a + b) == Join(a) + " " + Join(b)
  {
    assert (a + b)[1..] == a[1..] + b;
    if |a| == 1 {
      assert a[1..] + b == b;
    } else {
      JoinConcat(a[1..], b);
    }
  }

  /** A text without white space is left as it is. */
  lemma WordIsNormal(w: string)
    requires forall i :: 0 <= i < |w| ==> !IsSpace(w[i])
    ensures NormalizeInline(w) == w
  {
    if w != "" {
      assert WordLength(w) == |w|;
      assert w[..|w|] == w && Words(w[|w|..]) == [];
    }
  }

  /** White space between two texts becomes one space, and at their ends it goes. With
      `WordIsNormal` this determines what normalizing does. */
  lemma NormalizeSplits(x: string, y: string)
    requires x == "" || y == "" || IsSpace(x[|x| - 1]) || IsSpace(y[0])
    ensures Solid(x) != "" && Solid(y) != "" ==>
      NormalizeInline(x + y) == NormalizeInline(x) + " " + NormalizeInline(y)
    ensures Solid(x) == "" ==> NormalizeInline(x) == "" && NormalizeInline(x + y) == NormalizeInline(y)
    ensures Solid(y) == "" ==> NormalizeInline(y) == "" && NormalizeInline(x + y) == NormalizeInline(x)
  {
    WordsConcat(x, y);
    NoWordsIff(x);
    NoWordsIff(y);
    if Words(x) == [] {
      assert [] + Words(y) == Words(y);
    } else if Words(y) == [] {
      assert Words(x) + [] == Words(x);
    } else {
      JoinConcat(Words(x), Words(y));
    }
  }

  lemma {:induction false} NoWordsIff(s: string)
    ensures Words(s) == [] <==> Solid(s) == ""
    decreases |s|
  {
    if s != "" && IsSpace(s[0]) { NoWordsIff(s[1..]); }
  }

  /** Single spaces between words, and no other white space. */
  predicate Tidy(s: string) {
    forall i :: 0 <= i < |s| && IsSpace(s[i]) ==> s[i] == ' ' && 0 < i < |s| - 1 && !IsSpace(s[i + 1])
  }

  lemma {:induction false} TidyIsNormal(s: string)
    requires Tidy(s)
    ensures NormalizeInline(s) == s
    decreases |s|
  {
    var n := WordLength(s);
    if n == |s| {
      WordIsNormal(s);
    } else {
      hide IsSpace;
      var word, rest := s[..n], s[n + 1..];
      assert n > 0 && s[n] == ' ' && s == word + " " + rest && !IsSpace(rest[0]);
      forall i | 0 <= i < |rest| && IsSpace(rest[i])
        ensures rest[i] == ' ' && 0 < i < |rest| - 1 && !IsSpace(rest[i + 1])
      {
        assert rest[i] == s[n + 1 + i];
      }
      TidyIsNormal(rest);
      assert s[n..][1..] == rest && s[n..][0] == ' ';
      assert Words(s[n..]) == Words(rest) && Words(s) == [word] + Words(rest);
      assert Words(rest) != [];
    }
  }

  lemma {:induction false} NormalIsTidy(s: string)
    ensures Tidy(NormalizeInline(s)) && (NormalizeInline(s) != "" ==> !IsSpace(NormalizeInline(s)[0]))
    decreases |s|
  {
    if s != "" {
      hide IsSpace;
      if IsSpace(s[0]) {
        NormalIsTidy(s[1..]);
      } else {
        var n := WordLength(s);
        var word, rest := s[..n], NormalizeInline(s[n..]);
        NormalIsTidy(s[n..]);
        NoWordsIff(s[n..]);
        BlankNormalizesToNothing(s[n..]);
        if Words(s[n..]) == [] {
          assert NormalizeInline(s) == word;
        } else {
          assert NormalizeInline(s) == word + " " + rest;
          TidyAfterWord(word, rest);
        }
      }
    }
  }

  lemma TidyAfterWord(word: string, rest: string)
    requires word != "" && rest != "" && Tidy(rest) && !IsSpace(rest[0])
    requires forall i :: 0 <= i < |word| ==> !IsSpace(word[i])
    ensures Tidy(word + " " + rest) && !IsSpace((word + " " + rest)[0])
  {
    hide IsSpace;
    var s := word + " " + rest;
    assert s[..|word|] == word;
    forall i | 0 <= i < |s| && IsSpace(s[i]) ensures s[i] == ' ' && 0 < i < |s| - 1 && !IsSpace(s[i + 1]) {
      assert i >= |word|;
      if i > |word| {
        var j := i - |word| - 1;
        assert s[i] == rest[j];
        assert s[i + 1] == rest[j + 1];
      }
      assert s[|word|] == ' ' && s[|word| + 1] == rest[0];
    }
  }

  /** Normalizing leaves exactly the tidy texts alone, and always gives one. */
  lemma NormalIffTidy(s: string)
    ensures NormalizeInline(s) == s <==> Tidy(s)
    ensures Tidy(NormalizeInline(s))
  {
    NormalIsTidy(s);
    if Tidy(s) { TidyIsNormal(s); }
  }

  // --------------------------------------------------------------------- sentences

  /** Line breaks since the last character that is not white space. */
  function BlankRun(s: string): nat {
    if s == "" then 0
    else
      var last := s[|s| - 1];
      if last == '\n' then BlankRun(s[..|s| - 1]) + 1 else if !IsSpace(last) then 0 else BlankRun(s[..|s| - 1])
  }

  predicate EndsSentence(s: string) {
    s != "" && (s[|s| - 1] == '.' || s[|s| - 1] == '!' || s[|s| - 1] == '?' || BlankRun(s) >= 2)
  }

  /** The length of the first sentence of `s`, known to be at least `k`. */
  function SentenceLength(s: string, k: nat): (n: nat)
    requires k <= |s|
    ensures k <= n <= |s|
    decreases |s| - k
  {
    if k == |s| || EndsSentence(s[..k]) then k else SentenceLength(s, k + 1)
  }

  function Sentences(s: string): seq<string>
    decreases |s|
  {
    if s == "" then [] else
      var n := SentenceLength(s, 1);
      [s[..n]] + Sentences(s[n..])
  }

  function NonBlank(sentences: seq<string>): seq<string> {
    if sentences == [] then [] else
      var first := NormalizeInline(sentences[0]);
      (if first == "" then [] else [first]) + NonBlank(sentences[1..])
  }

  function Units(body: string): seq<string> { NonBlank(Sentences(body)) }

  predicate Open(s: string) {
    forall k :: 1 <= k <= |s| ==> !EndsSentence(s[..k])
  }

  lemma {:induction false} LengthSkips(s: string, k: nat, n: nat)
    requires k <= n <= |s| && forall j :: k <= j < n ==> !EndsSentence(s[..j])
    ensures SentenceLength(s, k) == SentenceLength(s, n)
    decreases n - k
  {
    if k < n { LengthSkips(s, k + 1, n); }
  }

  /** A sentence is complete as soon as it ends, not before. */
  lemma SentencesStep(current: string, rest: string)
    requires current != "" && EndsSentence(current) && Open(current[..|current| - 1])
    ensures Sentences(current + rest) == [current] + Sentences(rest)
  {
    var s, n := current + rest, |current|;
    forall j | 1 <= j < n ensures !EndsSentence(s[..j]) {
      assert s[..j] == current[..n - 1][..j];
    }
    LengthSkips(s, 1, n);
    assert s[..n] == current && s[n..] == rest;
  }

  lemma SentencesLast(current: string)
    requires Open(current)
    ensures Sentences(current) == if current == "" then [] else [current]
  {
    if current != "" {
      forall j | 1 <= j < |current| ensures !EndsSentence(current[..j]) { }
      LengthSkips(current, 1, |current|);
      assert current[..|current|] == current && current[|current|..] == "";
    }
  }

  lemma {:induction false} LengthStops(s: string, k: nat)
    requires k <= |s|
    ensures var n := SentenceLength(s, k);
      (n < |s| ==> EndsSentence(s[..n])) && forall j :: k <= j < n ==> !EndsSentence(s[..j])
    decreases |s| - k
  {
    if k < |s| && !EndsSentence(s[..k]) { LengthStops(s, k + 1); }
  }

  /** Every sentence but the last ends as one, and none ends any earlier. */
  lemma {:induction false} SentencesEndOnce(s: string, i: nat)
    requires i < |Sentences(s)|
    ensures Sentences(s)[i] != "" && Open(Sentences(s)[i][..|Sentences(s)[i]| - 1])
    ensures i < |Sentences(s)| - 1 ==> EndsSentence(Sentences(s)[i])
    decreases |s|
  {
    var n := SentenceLength(s, 1);
    LengthStops(s, 1);
    if i > 0 {
      SentencesEndOnce(s[n..], i - 1);
    } else {
      var head := s[..n][..n - 1];
      forall k | 1 <= k <= |head| ensures !EndsSentence(head[..k]) {
        assert head[..k] == s[..k];
      }
      if n == |s| { assert s[n..] == "" && Sentences(s[n..]) == []; }
    }
  }

  lemma {:induction false} NonBlankConcat(a: seq<string>, b: seq<string>)
    ensures NonBlank(a + b) == NonBlank(a) + NonBlank(b)
  {
    if a == [] {
      assert a + b == b;
    } else {
      assert (a + b)[1..] == a[1..] + b;
      NonBlankConcat(a[1..], b);
    }
  }

  /** The loop has read `i` characters: `current` is an unfinished sentence after those
      that gave `sentences`. */
  ghost predicate Reading(body: string, i: nat, sentences: seq<string>, current: string, blankRun: nat) {
    && i <= |body| && Open(current) && blankRun == BlankRun(current)
    && Units(body) == sentences + NonBlank(Sentences(current + body[i..]))
  }

  lemma ReadingBegins(body: string)
    ensures Reading(body, 0, [], "", 0)
  {
    assert "" + body[0..] == body;
  }

  lemma ReadingCloses(body: string, i: nat, sentences: seq<string>, current: string, blankRun: nat)
    requires Reading(body, i, sentences, current, blankRun) && i < |body| && EndsSentence(current + [body[i]])
    ensures var sentence := NormalizeInline(current + [body[i]]);
      Reading(body, i + 1, if sentence == "" then sentences else sentences + [sentence], "", 0)
  {
    hide EndsSentence, BlankRun;
    var closed, rest := current + [body[i]], body[i + 1..];
    assert current + body[i..] == closed + rest && closed[..|closed| - 1] == current && "" + rest == rest;
    SentencesStep(closed, rest);
    NonBlankConcat([closed], Sentences(rest));
    NonBlankOne(closed);
    assert BlankRun("") == 0 by { EmptyHasNoBlankRun(); }
    Regroup(sentences, NonBlank([closed]), NonBlank(Sentences(rest)));
  }

  lemma EmptyHasNoBlankRun()
    ensures BlankRun("") == 0
  {
  }

  lemma Regroup(a: seq<string>, b: seq<string>, c: seq<string>)
    ensures a + (b + c) == (a + b) + c
    ensures b == [] ==> a + (b + c) == a + c
  {
  }

  lemma ReadingContinues(body: string, i: nat, sentences: seq<string>, current: string, blankRun: nat)
    requires Reading(body, i, sentences, current, blankRun) && i < |body| && !EndsSentence(current + [body[i]])
    ensures Reading(body, i + 1, sentences, current + [body[i]], BlankRun(current + [body[i]]))
  {
    hide EndsSentence, BlankRun, NonBlank, Sentences;
    assert current + body[i..] == (current + [body[i]]) + body[i + 1..];
    StaysOpen(current, body[i]);
  }

  lemma ReadingEnds(body: string, sentences: seq<string>, current: string, blankRun: nat)
    requires Reading(body, |body|, sentences, current, blankRun)
    ensures var trailing := NormalizeInline(current);
      Units(body) == if trailing == "" then sentences else sentences + [trailing]
  {
    hide EndsSentence, BlankRun;
    assert current + body[|body|..] == current;
    SentencesLast(current);
    NonBlankOne(current);
  }

  lemma BlankRunStep(current: string, ch: char)
    ensures BlankRun(current + [ch]) == if ch == '\n' then BlankRun(current) + 1 else if !IsSpace(ch) then 0
      else BlankRun(current)
  {
    assert (current + [ch])[..|current|] == current;
  }

  /** The first sentence becomes a unit, normalized, unless it is blank. */
  lemma UnitsStep(sentence: string, rest: string)
    requires sentence != "" && EndsSentence(sentence) && Open(sentence[..|sentence| - 1])
    ensures Units(sentence + rest) ==
      (if Solid(sentence) == "" then [] else [NormalizeInline(sentence)]) + Units(rest)
  {
    hide EndsSentence;
    SentencesStep(sentence, rest);
    NonBlankConcat([sentence], Sentences(rest));
    NonBlankOne(sentence);
    BlankNormalizesToNothing(sentence);
  }

  /** Units are tidy; a body that is one tidy sentence is its own only unit and chunk. */
  lemma TidySentenceIsChunk(s: string)
    requires s != "" && Tidy(s) && Open(s[..|s| - 1])
    ensures Units(s) == [s] && Chunks(s) == [s]
  {
    TidyIsNormal(s);
    hide EndsSentence;
    if EndsSentence(s) {
      UnitsStep(s, "");
      assert s + "" == s;
      BlankNormalizesToNothing(s);
      assert [s] + [] == [s];
    } else {
      forall k | 1 <= k <= |s| ensures !EndsSentence(s[..k]) {
        assert k < |s| ==> s[..|s| - 1][..k] == s[..k];
        assert k == |s| ==> s[..k] == s;
      }
      SentencesLast(s);
      NonBlankOne(s);
    }
    assert Pack([s]) == [[s]] by { assert [s][..1] == [s] && [s][1..] == []; }
    assert Join([s]) == s;
  }

  lemma {:induction false} UnitsAreTidy(sentences: seq<string>)
    ensures forall i :: 0 <= i < |NonBlank(sentences)| ==> Tidy(NonBlank(sentences)[i])
  {
    if sentences != [] {
      hide Tidy;
      NormalIffTidy(sentences[0]);
      UnitsAreTidy(sentences[1..]);
    }
  }

  /** One pass over the characters. */
  method SentenceUnits(body: string) returns (sentences: seq<string>)
    ensures sentences == Units(body)
    ensures forall i :: 0 <= i < |sentences| ==> Tidy(sentences[i]) && sentences[i] != ""
  {
    hide Tidy, Units, NonBlank;
    hide Reading, BlankRun, NormalizeInline, IsSpace;
    sentences := [];
    var current := "";
    var blankRun := 0;
    ReadingBegins(body);
    for i := 0 to |body|
      invariant Reading(body, i, sentences, current, blankRun)
    {
      var ch := body[i];
      ghost var before, runBefore := current, blankRun;
      BlankRunStep(current, ch);
      RunIsKnown(body, i, sentences, current, blankRun);
      if ch == '\n' {
        blankRun := blankRun + 1;
      } else if !IsSpace(ch) {
        blankRun := 0;
      }
      current := current + [ch];
      if ch == '.' || ch == '!' || ch == '?' || blankRun >= 2 {
        ReadingCloses(body, i, sentences, before, runBefore);
        var sentence := NormalizeInline(current);
        if sentence != "" { sentences := sentences + [sentence]; }
        current := "";
        blankRun := 0;
      } else {
        ReadingContinues(body, i, sentences, before, runBefore);
      }
    }
    ReadingEnds(body, sentences, current, blankRun);
    var trailing := NormalizeInline(current);
    if trailing != "" { sentences := sentences + [trailing]; }
    TidyUnits(body);
  }

  lemma TidyUnits(body: string)
    ensures forall i :: 0 <= i < |Units(body)| ==> Tidy(Units(body)[i]) && Units(body)[i] != ""
  {
    UnitsAreTidy(Sentences(body));
    UnitsAreSolid(Sentences(body));
  }

  lemma RunIsKnown(body: string, i: nat, sentences: seq<string>, current: string, blankRun: nat)
    requires Reading(body, i, sentences, current, blankRun)
    ensures blankRun == BlankRun(current)
  {
  }

  lemma NonBlankOne(s: string)
    ensures NonBlank([s]) == if NormalizeInline(s) == "" then [] else [NormalizeInline(s)]
    ensures s == "" ==> NormalizeInline(s) == ""
  {
    assert [s][1..] == [];
    assert NonBlank([s][1..]) == [];
  }

  lemma StaysOpen(s: string, ch: char)
    requires Open(s) && !EndsSentence(s + [ch])
    ensures Open(s + [ch])
  {
    forall k | 1 <= k <= |s| + 1 ensures !EndsSentence((s + [ch])[..k]) {
      assert (s + [ch])[..k] == if k <= |s| then s[..k] else s + [ch];
    }
  }

  // ------------------------------------------------------------------------ packing

  /** A chunk holds one unit, or several that fit together. */
  predicate Fits(group: seq<string>) {
    |group| == 1 || (|group| > 1 && |Join(group)| <= 1_000)
  }

  /** How many units the first chunk takes, known to be at least `k`. */
  function FirstChunk(units: seq<string>, k: nat): (n: nat)
    requires 1 <= k <= |units|
    ensures k <= n <= |units|
    decreases |units| - k
  {
    if k < |units| && |Join(units[..k + 1])| <= MAX_CHUNK_CHARS then FirstChunk(units, k + 1) else k
  }

  function Pack(units: seq<string>): seq<seq<string>>
    decreases |units|
  {
    if units == [] then [] else
      var n := FirstChunk(units, 1);
      [units[..n]] + Pack(units[n..])
  }

  function JoinAll(groups: seq<seq<string>>): seq<string> {
    seq(|groups|, i requires 0 <= i < |groups| => Join(groups[i]))
  }

  function Chunks(body: string): seq<string> {
    if Units(body) == [] then [Trim(body)] else JoinAll(Pack(Units(body)))
  }

  lemma {:induction false} JoinAppend(parts: seq<string>, last: string)
    requires parts != []
    ensures Join(parts + [last]) == Join(parts) + " " + last
  {
    if |parts| == 1 {
      assert (parts + [last])[1..] == [last];
    } else {
      assert (parts + [last])[1..] == parts[1..] + [last];
      JoinAppend(parts[1..], last);
    }
  }

  /** A group that can be grown one unit at a time within the bound. */
  predicate Growing(group: seq<string>) {
    group != [] && forall k :: 2 <= k <= |group| ==> |Join(group[..k])| <= MAX_CHUNK_CHARS
  }

  lemma {:induction false} FirstChunkSkips(units: seq<string>, k: nat, n: nat)
    requires 1 <= k <= n <= |units| && forall j :: k < j <= n ==> |Join(units[..j])| <= MAX_CHUNK_CHARS
    ensures FirstChunk(units, k) == FirstChunk(units, n)
    decreases n - k
  {
    if k < n { FirstChunkSkips(units, k + 1, n); }
  }

  /** A growing group that the next unit does not fit into is the first chunk. */
  lemma PackStep(group: seq<string>, rest: seq<string>)
    requires Growing(group) && (rest != [] ==> |Join(group + [rest[0]])| > MAX_CHUNK_CHARS)
    ensures Pack(group + rest) == [group] + Pack(rest)
  {
    var units, n := group + rest, |group|;
    forall j | 1 < j <= n ensures |Join(units[..j])| <= MAX_CHUNK_CHARS { assert units[..j] == group[..j]; }
    FirstChunkSkips(units, 1, n);
    if rest != [] { assert units[..n + 1] == group + [rest[0]]; }
    assert units[..n] == group && units[n..] == rest;
  }

  lemma GrowingMore(group: seq<string>, unit: string)
    requires Growing(group) && |Join(group + [unit])| <= MAX_CHUNK_CHARS
    ensures Growing(group + [unit])
  {
    forall k | 2 <= k <= |group| + 1 ensures |Join((group + [unit])[..k])| <= MAX_CHUNK_CHARS {
      assert (group + [unit])[..k] == if k <= |group| then group[..k] else group + [unit];
    }
  }

  /** The loop has taken `i` units: `current` is the joined unfinished group. */
  ghost predicate Packing(units: seq<string>, i: nat, chunks: seq<string>, current: string, group: seq<string>) {
    && i <= |units| && current == Join(group) && (group == [] <==> i == 0) && (group != [] ==> Growing(group))
    && (group == [] <==> current == "")
    && JoinAll(Pack(units)) == chunks + JoinAll(Pack(group + units[i..]))
  }

  lemma PackingBegins(units: seq<string>)
    ensures Packing(units, 0, [], "", [])
  {
    assert [] + units[0..] == units;
  }

  lemma PackingCloses(units: seq<string>, i: nat, chunks: seq<string>, current: string, group: seq<string>)
    requires Packing(units, i, chunks, current, group) && i < |units| && current != "" && units[i] != ""
    requires |current| + 1 + |units[i]| > MAX_CHUNK_CHARS
    ensures Packing(units, i + 1, chunks + [current], units[i], [units[i]])
  {
    hide Pack;
    var rest := units[i..];
    JoinAppend(group, units[i]);
    PackStep(group, rest);
    assert JoinAll([group] + Pack(rest)) == [current] + JoinAll(Pack(rest));
    assert [units[i]] + units[i + 1..] == rest;
    assert chunks + ([current] + JoinAll(Pack(rest))) == (chunks + [current]) + JoinAll(Pack(rest));
  }

  lemma PackingGrows(units: seq<string>, i: nat, chunks: seq<string>, current: string, group: seq<string>)
    requires Packing(units, i, chunks, current, group) && i < |units| && units[i] != ""
    requires current == "" || |current| + 1 + |units[i]| <= MAX_CHUNK_CHARS
    ensures var longer := if current == "" then units[i] else current + " " + units[i];
      Packing(units, i + 1, chunks, longer, group + [units[i]])
  {
    hide Pack;
    assert (group + [units[i]]) + units[i + 1..] == group + units[i..];
    if current != "" {
      JoinAppend(group, units[i]);
      GrowingMore(group, units[i]);
    } else {
      assert group + [units[i]] == [units[i]];
    }
  }

  lemma PackingEnds(units: seq<string>, chunks: seq<string>, current: string, group: seq<string>)
    requires Packing(units, |units|, chunks, current, group) && units != []
    ensures current != "" && JoinAll(Pack(units)) == chunks + [current]
  {
    assert group + units[|units|..] == group + [];
    PackStep(group, []);
    assert JoinAll([group] + Pack([])) == [current];
  }

  /** Greedy packing of the sentences, one chunk at a time. */
  method ChunkEmailCore(body: string) returns (chunks: seq<string>)
    ensures chunks == Chunks(body)
  {
    hide Packing, Join, Pack;
    var units := SentenceUnits(body);
    if units == [] {
      return [Trim(body)];
    }
    UnitsAreSolid(Sentences(body));
    chunks := [];
    var current := "";
    ghost var group := [];
    PackingBegins(units);
    for i := 0 to |units|
      invariant Packing(units, i, chunks, current, group)
    {
      var unit := units[i];
      var candidateLen := if current == "" then |unit| else |current| + 1 + |unit|;
      if current != "" && candidateLen > MAX_CHUNK_CHARS {
        PackingCloses(units, i, chunks, current, group);
        chunks := chunks + [current];
        current := unit;
        group := [unit];
        continue;
      }
      PackingGrows(units, i, chunks, current, group);
      group := group + [unit];
      assert "" + unit == unit;
      if current != "" { current := current + " "; }
      current := current + unit;
    }
    PackingEnds(units, chunks, current, group);
    if current != "" { chunks := chunks + [current]; }
  }

  /** No unit is empty. */
  lemma {:induction false} UnitsAreSolid(sentences: seq<string>)
    ensures forall i :: 0 <= i < |NonBlank(sentences)| ==> NonBlank(sentences)[i] != ""
    ensures Solid(Concat(NonBlank(sentences))) == Solid(Concat(sentences))
  {
    if sentences != [] {
      var first := sentences[0];
      UnitsAreSolid(sentences[1..]);
      SolidConcat(first, Concat(sentences[1..]));
      BlankNormalizesToNothing(first);
      if NormalizeInline(first) != "" {
        NormalizeKeepsSolid(first);
        SolidConcat(NormalizeInline(first), Concat(NonBlank(sentences[1..])));
        assert ([NormalizeInline(first)] + NonBlank(sentences[1..]))[1..] == NonBlank(sentences[1..]);
      } else {
        assert [] + NonBlank(sentences[1..]) == NonBlank(sentences[1..]);
      }
    }
  }

  // ------------------------------------------------------------------- what chunks are

  function Flatten(groups: seq<seq<string>>): seq<string> {
    if groups == [] then [] else groups[0] + Flatten(groups[1..])
  }

  /** A way of cutting the units into consecutive chunks that obeys the bound. */
  ghost predicate Partition(units: seq<string>, groups: seq<seq<string>>) {
    Flatten(groups) == units && forall i :: 0 <= i < |groups| ==> Fits(groups[i])
  }

  lemma {:induction false} FirstChunkFits(units: seq<string>, k: nat)
    requires 1 <= k <= |units| && Fits(units[..k])
    ensures Fits(units[..FirstChunk(units, k)])
    ensures FirstChunk(units, k) < |units| ==> |Join(units[..FirstChunk(units, k) + 1])| > MAX_CHUNK_CHARS
    decreases |units| - k
  {
    if k < |units| && |Join(units[..k + 1])| <= MAX_CHUNK_CHARS { FirstChunkFits(units, k + 1); }
  }

  lemma {:induction false} PackIsPartition(units: seq<string>)
    ensures Partition(units, Pack(units))
    decreases |units|
  {
    if units != [] {
      var n := FirstChunk(units, 1);
      FirstChunkFits(units, 1);
      PackIsPartition(units[n..]);
      assert units == units[..n] + units[n..];
      assert Pack(units)[1..] == Pack(units[n..]);
    }
  }

  lemma {:induction false} JoinLonger(a: seq<string>, b: seq<string>)
    ensures |Join(a)| <= |Join(a + b)| && |Join(b)| <= |Join(a + b)|
  {
    if a == [] {
      assert a + b == b;
    } else {
      assert (a + b)[1..] == a[1..] + b;
      JoinLonger(a[1..], b);
      if |a| == 1 { assert a[1..] == []; assert [] + b == b; }
    }
  }

  /** Leaving out units at the front never needs more chunks. */
  lemma {:induction false} FewerUnitsFewerChunks(units: seq<string>, groups: seq<seq<string>>, k: nat)
    returns (fewer: seq<seq<string>>)
    requires Partition(units, groups) && k <= |units|
    ensures Partition(units[k..], fewer) && |fewer| <= |groups|
    decreases |groups|
  {
    if groups == [] || k == 0 {
      fewer := groups;
      assert units[0..] == units;
    } else {
      var first, rest := groups[0], groups[1..];
      assert units == first + Flatten(rest);
      if k >= |first| {
        assert units[|first|..] == Flatten(rest);
        fewer := FewerUnitsFewerChunks(units[|first|..], rest, k - |first|);
        assert units[|first|..][k - |first|..] == units[k..];
      } else {
        var cut := first[k..];
        assert first == first[..k] + cut;
        JoinLonger(first[..k], cut);
        fewer := [cut] + rest;
        assert fewer[1..] == rest && units[k..] == cut + Flatten(rest);
      }
    }
  }

  /** The first chunk of any such partition is at most as long as the greedy one. */
  lemma FirstGroupIsShort(units: seq<string>, first: seq<string>, rest: seq<string>)
    requires units == first + rest && Fits(first)
    ensures |first| <= FirstChunk(units, 1)
  {
    var n := FirstChunk(units, 1);
    FirstChunkFits(units, 1);
    if |first| > n {
      assert first == units[..n + 1] + units[n + 1..|first|];
      JoinLonger(units[..n + 1], units[n + 1..|first|]);
    }
  }

  /** No way of cutting the units that obeys the bound uses fewer chunks. */
  lemma {:induction false} PackIsOptimal(units: seq<string>, groups: seq<seq<string>>)
    requires Partition(units, groups)
    ensures |Pack(units)| <= |groups|
    decreases |units|
  {
    if units != [] {
      hide Join, Fits;
      var n, k := FirstChunk(units, 1), |groups[0]|;
      assert units == groups[0] + Flatten(groups[1..]);
      FirstGroupIsShort(units, groups[0], Flatten(groups[1..]));
      assert units[k..] == Flatten(groups[1..]);
      var fewer := FewerUnitsFewerChunks(units[k..], groups[1..], n - k);
      assert units[k..][n - k..] == units[n..];
      PackIsOptimal(units[n..], fewer);
    }
  }

  lemma {:induction false} FlattenSolid(groups: seq<seq<string>>)
    ensures Solid(Concat(JoinAll(groups))) == Solid(Concat(Flatten(groups)))
  {
    if groups != [] {
      var first, rest := groups[0], groups[1..];
      FlattenSolid(rest);
      assert JoinAll(groups) == [Join(first)] + JoinAll(rest);
      assert JoinAll(groups)[1..] == JoinAll(rest);
      JoinSolid(first);
      SolidConcat(Join(first), Concat(JoinAll(rest)));
      ConcatConcat(first, Flatten(rest));
      SolidConcat(Concat(first), Concat(Flatten(rest)));
    }
  }

  lemma {:induction false} ConcatConcat(a: seq<string>, b: seq<string>)
    ensures Concat(a + b) == Concat(a) + Concat(b)
  {
    if a == [] {
      assert a + b == b && "" + Concat(b) == Concat(b);
    } else {
      assert (a + b)[1..] == a[1..] + b;
      ConcatConcat(a[1..], b);
    }
  }

  lemma {:induction false} SentencesConcat(s: string)
    ensures Concat(Sentences(s)) == s
    decreases |s|
  {
    if s != "" {
      hide EndsSentence, SentenceLength;
      var n := SentenceLength(s, 1);
      var first, rest := s[..n], Sentences(s[n..]);
      SentencesConcat(s[n..]);
      assert Sentences(s) == [first] + rest && ([first] + rest)[1..] == rest;
      assert first + s[n..] == s;
    }
  }

  /** The chunks hold all characters of the body that are not white space, in order. */
  lemma ChunksAreLossless(body: string)
    ensures Solid(Concat(Chunks(body))) == Solid(body)
  {
    var units := Units(body);
    UnitsAreSolid(Sentences(body));
    SentencesConcat(body);
    if units == [] {
      TrimSolid(body);
      assert Concat([Trim(body)]) == Trim(body) + Concat([Trim(body)][1..]) == Trim(body);
    } else {
      PackIsPartition(units);
      FlattenSolid(Pack(units));
    }
  }

  /** There is always a chunk; it is within the bound or a single sentence; and a body of
      white space alone gives one empty chunk. */
  lemma ChunksAreBounded(body: string, i: nat)
    requires i < |Chunks(body)|
    ensures |Chunks(body)| >= 1
    ensures Units(body) == [] <==> Solid(body) == ""
    ensures Units(body) == [] ==> Chunks(body) == [""]
    ensures |Chunks(body)[i]| <= 1_000 || Chunks(body)[i] in Units(body)
  {
    var units := Units(body);
    UnitsAreSolid(Sentences(body));
    SentencesConcat(body);
    if units == [] {
      TrimSolid(body);
    } else {
      FirstUnitIsSolid(Sentences(body));
      PackIsPartition(units);
      var group := Pack(units)[i];
      if |group| == 1 { FlattenHolds(Pack(units), i); }
    }
  }

  lemma {:induction false} FlattenHolds(groups: seq<seq<string>>, i: nat)
    requires i < |groups|
    ensures forall x :: x in groups[i] ==> x in Flatten(groups)
  {
    if i > 0 { FlattenHolds(groups[1..], i - 1); }
  }

  lemma {:induction false} FirstUnitIsSolid(sentences: seq<string>)
    requires NonBlank(sentences) != []
    ensures Solid(Concat(sentences)) != ""
  {
    var first := sentences[0];
    SolidConcat(first, Concat(sentences[1..]));
    BlankNormalizesToNothing(first);
    if NormalizeInline(first) == "" { FirstUnitIsSolid(sentences[1..]); }
  }
}
