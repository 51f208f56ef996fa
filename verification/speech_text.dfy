/**
 Speech text: removing what is only visual from a reply, and splitting the rest into short chunks
 that are synthesised and played one after the other.
 */
module SpeechText {

  // ------------------------------------------------------------------
  // Characters
  // ------------------------------------------------------------------

  // The characters matched by `\s` and removed by `strip`.
  predicate IsSpace(c: char) {
    var n := c as int;
    || 9 <= n <= 13 || 28 <= n <= 32 || n == 0x85 || n == 0xA0 || n == 0x1680 || 0x2000 <= n <= 0x200A
    || n == 0x2028 || n == 0x2029 || n == 0x202F || n == 0x205F || n == 0x3000
  }

  predicate IsEmoji(c: char) {
    var n := c as int;
    0x1F1E0 <= n <= 0x1F1FF || 0x1F300 <= n <= 0x1FAFF || 0x2700 <= n <= 0x27BF || 0x2600 <= n <= 0x26FF
  }

  predicate IsMarkup(c: char) {
    c in "*_#`[]{}<>"
  }

  // The marks that end a sentence, the Arabic question mark and semicolon among them.
  predicate EndsSentence(c: char) {
    c == '.' || c == '!' || c == '?' || c as int == 0x061F || c as int == 0x061B
  }

  // ------------------------------------------------------------------
  // Cleaning
  // ------------------------------------------------------------------

  function WithoutEmoji(s: string): string {
    if s == "" then "" else (if IsEmoji(s[0]) then "" else [s[0]]) + WithoutEmoji(s[1..])
  }

  function WithoutMarkup(s: string): string {
    if s == "" then "" else (if IsMarkup(s[0]) then "" else [s[0]]) + WithoutMarkup(s[1..])
  }

  // Every run of white space becomes one blank.
  function Collapsed(s: string): string {
    if s == "" then ""
    else if !IsSpace(s[0]) then [s[0]] + Collapsed(s[1..])
    else if |s| > 1 && IsSpace(s[1]) then Collapsed(s[1..])
    else " " + Collapsed(s[1..])
  }

  function StripLeft(s: string): (r: string)
    ensures |r| <= |s|
    ensures s != "" && IsSpace(s[0]) ==> |r| < |s|
  {
    if s != "" && IsSpace(s[0]) then StripLeft(s[1..]) else s
  }

  function StripRight(s: string): (r: string)
    ensures |r| <= |s|
  {
    if s != "" && IsSpace(s[|s| - 1]) then StripRight(s[..|s| - 1]) else s
  }

  function Strip(s: string): string {
    StripRight(StripLeft(s))
  }

  function CleanSpokenText(text: string): string {
    Strip(Collapsed(WithoutMarkup(WithoutEmoji(text))))
  }

  // What cleaning is for: nothing visual is left, words are separated by one blank, and none is at an end.
  ghost predicate Speakable(s: string) {
    && (forall i :: 0 <= i < |s| ==> !IsEmoji(s[i]) && !IsMarkup(s[i]) && (IsSpace(s[i]) ==> s[i] == ' '))
    && (forall i {:trigger s[i]} :: 0 < i < |s| && IsSpace(s[i]) ==> !IsSpace(s[i - 1]))
    && (s != "" ==> !IsSpace(s[0]) && !IsSpace(s[|s| - 1]))
  }

  // ------------------------------------------------------------------
  // Words: the independent meaning of a text
  // ------------------------------------------------------------------

  function WordEnd(s: string): (n: nat)
    ensures n <= |s|
    ensures forall i :: 0 <= i < n ==> !IsSpace(s[i])
    ensures n < |s| ==> IsSpace(s[n])
  {
    if s == "" || IsSpace(s[0]) then 0 else 1 + WordEnd(s[1..])
  }

  // The maximal runs of characters that are not white space.
  function Words(s: string): seq<string>
    decreases |s|
  {
    if s == "" then []
    else if IsSpace(s[0]) then Words(s[1..])
    else [s[..WordEnd(s)]] + Words(s[WordEnd(s)..])
  }

  function Spoken(s: string): string {
    if s == "" then "" else (if IsSpace(s[0]) then "" else [s[0]]) + Spoken(s[1..])
  }

  predicate Blank(s: string) {
    forall i :: 0 <= i < |s| ==> IsSpace(s[i])
  }

  lemma Associate<T>(a: seq<T>, b: seq<T>, c: seq<T>)
    ensures (a + b) + c == a + (b + c)
  {
  }

  lemma {:induction false} SpokenJoin(a: string, b: string)
    ensures Spoken(a + b) == Spoken(a) + Spoken(b)
  {
    if a == "" {
      assert a + b == b;
    } else {
      SpokenJoin(a[1..], b);
      assert (a + b)[0] == a[0] && (a + b)[1..] == a[1..] + b;
      Associate(if IsSpace(a[0]) then "" else [a[0]], Spoken(a[1..]), Spoken(b));
    }
  }

  // A word of the first part ends where it ended before.
  lemma WordEndOfJoin(a: string, b: string)
    requires a != "" && b != "" && (IsSpace(a[|a| - 1]) || IsSpace(b[0]))
    ensures WordEnd(a + b) == WordEnd(a)
  {
    assert forall i :: 0 <= i < |a| ==> (a + b)[i] == a[i];
    assert (a + b)[|a|] == b[0];
  }

  lemma SliceOfJoin(a: string, b: string, n: nat)
    requires n <= |a|
    ensures (a + b)[n..] == a[n..] + b && (a + b)[..n] == a[..n]
  {
  }

  lemma WordsStep(a: string, b: string)
    requires a != "" && b != "" && !IsSpace(a[0]) && (IsSpace(a[|a| - 1]) || IsSpace(b[0]))
    ensures Words(a + b) == [a[..WordEnd(a)]] + Words(a[WordEnd(a)..] + b)
  {
    WordEndOfJoin(a, b);
    SliceOfJoin(a, b, WordEnd(a));
  }

  // Words do not reach across white space.
  lemma {:induction false} WordsJoin(a: string, b: string)
    requires a == "" || b == "" || IsSpace(a[|a| - 1]) || IsSpace(b[0])
    ensures Words(a + b) == Words(a) + Words(b)
    decreases |a|
  {
    if a == "" {
      assert a + b == b;
    } else if b == "" {
      assert a + b == a;
    } else if IsSpace(a[0]) {
      WordsJoin(a[1..], b);
      SliceOfJoin(a, b, 1);
    } else {
      var n := WordEnd(a);
      WordsStep(a, b);
      WordsJoin(a[n..], b);
      Associate([a[..n]], Words(a[n..]), Words(b));
    }
  }

  lemma {:induction false} BlankHasNoWords(s: string)
    requires Blank(s)
    ensures Words(s) == [] && Spoken(s) == ""
  {
    if s != "" {
      BlankHasNoWords(s[1..]);
    }
  }

  // Stripping takes away white space at both ends and nothing else.
  lemma {:induction false} StripLeftIs(s: string) returns (n: nat)
    ensures n <= |s| && StripLeft(s) == s[n..] && Blank(s[..n])
    ensures n < |s| ==> !IsSpace(s[n])
  {
    n := 0;
    if s != "" && IsSpace(s[0]) {
      var m := StripLeftIs(s[1..]);
      n := m + 1;
      assert s[..n] == [s[0]] + s[1..][..m];
    }
  }

  lemma {:induction false} StripRightIs(s: string) returns (n: nat)
    ensures n <= |s| && StripRight(s) == s[..n] && Blank(s[n..])
    ensures n > 0 ==> !IsSpace(s[n - 1])
  {
    n := |s|;
    if s != "" && IsSpace(s[|s| - 1]) {
      var t := s[..|s| - 1];
      n := StripRightIs(t);
      assert s[n..] == t[n..] + [s[|s| - 1]];
    }
  }

  lemma StripIs(s: string) returns (i: nat, j: nat)
    ensures i <= j <= |s| && Strip(s) == s[i..j] && Blank(s[..i]) && Blank(s[j..])
    ensures i < j ==> !IsSpace(s[i]) && !IsSpace(s[j - 1])
  {
    i := StripLeftIs(s);
    var t := s[i..];
    var n := StripRightIs(t);
    j := i + n;
    assert s[j..] == t[n..];
    assert s[i..j] == t[..n];
  }

  lemma StripKeepsWords(s: string)
    ensures Words(Strip(s)) == Words(s) && Spoken(Strip(s)) == Spoken(s)
  {
    var i, j := StripIs(s);
    var head, mid, tail := s[..i], s[i..j], s[j..];
    assert s == head + (mid + tail);
    BlankHasNoWords(head);
    BlankHasNoWords(tail);
    WordsJoin(head, mid + tail);
    WordsJoin(mid, tail);
    SpokenJoin(head, mid + tail);
    SpokenJoin(mid, tail);
  }

  // ------------------------------------------------------------------
  // Cleaning: its result is speakable, it keeps the words, and doing it twice changes nothing
  // ------------------------------------------------------------------

  predicate Visual(c: char) {
    IsEmoji(c) || IsMarkup(c)
  }

  // What is heard of a text: neither visual nor white space, in order.
  function Heard(s: string): string {
    if s == "" then "" else (if Visual(s[0]) || IsSpace(s[0]) then "" else [s[0]]) + Heard(s[1..])
  }

  lemma {:induction false} WithoutEmojiHas(s: string)
    ensures forall c :: c in WithoutEmoji(s) <==> c in s && !IsEmoji(c)
    ensures (forall c :: c in s ==> !IsEmoji(c)) ==> WithoutEmoji(s) == s
  {
    if s != "" {
      WithoutEmojiHas(s[1..]);
      assert s == [s[0]] + s[1..];
      assert forall c :: c in s[1..] ==> c in s;
    }
  }

  lemma {:induction false} WithoutMarkupHas(s: string)
    ensures forall c :: c in WithoutMarkup(s) <==> c in s && !IsMarkup(c)
    ensures (forall c :: c in s ==> !IsMarkup(c)) ==> WithoutMarkup(s) == s
  {
    if s != "" {
      WithoutMarkupHas(s[1..]);
      assert s == [s[0]] + s[1..];
      assert forall c :: c in s[1..] ==> c in s;
    }
  }

  ghost predicate SingleBlanks(s: string) {
    && (forall i :: 0 <= i < |s| && IsSpace(s[i]) ==> s[i] == ' ')
    && (forall i {:trigger s[i]} :: 0 < i < |s| && IsSpace(s[i]) ==> !IsSpace(s[i - 1]))
  }

  lemma {:induction false} CollapsedHas(s: string)
    ensures SingleBlanks(Collapsed(s))
    ensures forall c :: c in Collapsed(s) ==> c == ' ' || c in s
    ensures (s == "") == (Collapsed(s) == "")
    ensures s != "" ==> (IsSpace(Collapsed(s)[0]) <==> IsSpace(s[0]))
  {
    if s != "" {
      CollapsedHas(s[1..]);
      assert forall c :: c in s[1..] ==> c in s;
    }
  }

  lemma {:induction false} CollapsedKeepsSingleBlanks(s: string)
    requires SingleBlanks(s)
    ensures Collapsed(s) == s
  {
    if s != "" {
      var t := s[1..];
      assert forall i {:trigger t[i]} :: 0 <= i < |t| ==> t[i] == s[i + 1];
      assert forall i {:trigger t[i]} :: 0 < i < |t| && IsSpace(t[i]) ==> IsSpace(s[i + 1]) && t[i - 1] == s[i];
      CollapsedKeepsSingleBlanks(t);
      assert s == [s[0]] + t;
      if |s| > 1 && IsSpace(s[1]) {
        assert !IsSpace(s[0]);
      }
    }
  }

  lemma StripMakesSpeakable(c: string)
    requires SingleBlanks(c) && forall x :: x in c ==> !Visual(x)
    ensures Speakable(Strip(c))
  {
    var i, j := StripIs(c);
    var r := c[i..j];
    forall k | 0 <= k < |r|
      ensures !Visual(r[k]) && (IsSpace(r[k]) ==> r[k] == ' ')
      ensures 0 < k && IsSpace(r[k]) ==> !IsSpace(r[k - 1])
    {
      assert r[k] == c[i + k] && c[i + k] in c;
      assert 0 < k ==> r[k - 1] == c[i + k - 1];
    }
  }

  lemma CleanIsSpeakable(text: string)
    ensures Speakable(CleanSpokenText(text))
  {
    var a := WithoutEmoji(text);
    var b := WithoutMarkup(a);
    WithoutEmojiHas(text);
    WithoutMarkupHas(a);
    CollapsedHas(b);
    StripMakesSpeakable(Collapsed(b));
  }

  lemma SpeakableStays(s: string)
    requires Speakable(s)
    ensures CleanSpokenText(s) == s
  {
    WithoutEmojiHas(s);
    WithoutMarkupHas(s);
    CollapsedKeepsSingleBlanks(s);
  }

  // Cleaning twice is cleaning once, and exactly the speakable texts are left as they are.
  lemma CleaningIsIdempotent(text: string)
    ensures CleanSpokenText(CleanSpokenText(text)) == CleanSpokenText(text)
    ensures CleanSpokenText(text) == text <==> Speakable(text)
  {
    CleanIsSpeakable(text);
    SpeakableStays(CleanSpokenText(text));
    if Speakable(text) {
      SpeakableStays(text);
    }
  }

  lemma {:induction false} HeardThroughFilters(s: string)
    ensures Spoken(WithoutMarkup(WithoutEmoji(s))) == Heard(s)
  {
    if s != "" {
      HeardThroughFilters(s[1..]);
      var rest := WithoutEmoji(s[1..]);
      if !IsEmoji(s[0]) {
        assert ([s[0]] + rest)[1..] == rest;
        SpokenJoin(if IsMarkup(s[0]) then "" else [s[0]], WithoutMarkup(rest));
      } else {
        assert WithoutEmoji(s) == rest;
      }
    }
  }

  lemma {:induction false} FirstWord(s: string, n: nat)
    requires n <= |s| && (forall i :: 0 <= i < n ==> !IsSpace(s[i])) && (n < |s| ==> IsSpace(s[n]))
    ensures WordEnd(s) == n
  {
  }

  lemma WordsFromWord(s: string, n: nat)
    requires 0 < n <= |s| && (forall i :: 0 <= i < n ==> !IsSpace(s[i])) && (n < |s| ==> IsSpace(s[n]))
    ensures Words(s) == [s[..n]] + Words(s[n..])
  {
  }

  lemma {:induction false} CollapsedAfterWord(s: string, n: nat)
    requires n <= |s| && forall i :: 0 <= i < n ==> !IsSpace(s[i])
    ensures Collapsed(s) == s[..n] + Collapsed(s[n..])
  {
    if n == 0 {
      assert s[0..] == s;
    } else {
      CollapsedAfterWord(s[1..], n - 1);
      assert s[1..][n - 1..] == s[n..] && s[..n] == [s[0]] + s[1..][..n - 1];
      Associate([s[0]], s[1..][..n - 1], Collapsed(s[n..]));
    }
  }

  lemma CollapsedWord(s: string, n: nat)
    requires 0 < n <= |s| && (forall i :: 0 <= i < n ==> !IsSpace(s[i])) && (n < |s| ==> IsSpace(s[n]))
    ensures Words(Collapsed(s)) == [s[..n]] + Words(Collapsed(s[n..]))
  {
    var c, rest := Collapsed(s), Collapsed(s[n..]);
    CollapsedAfterWord(s, n);
    CollapsedHas(s[n..]);
    assert c[..n] == s[..n] && c[n..] == rest;
    assert forall i :: 0 <= i < n ==> c[i] == s[i];
    assert n < |c| ==> c[n] == rest[0];
    WordsFromWord(c, n);
  }

  lemma {:induction false} CollapsedKeepsWords(s: string)
    ensures Words(Collapsed(s)) == Words(s)
    decreases |s|
  {
    if s != "" {
      if IsSpace(s[0]) {
        CollapsedKeepsWords(s[1..]);
        if !(|s| > 1 && IsSpace(s[1])) {
          assert (" " + Collapsed(s[1..]))[1..] == Collapsed(s[1..]);
        }
      } else {
        CollapsedWord(s, WordEnd(s));
        CollapsedKeepsWords(s[WordEnd(s)..]);
      }
    }
  }

  lemma {:induction false} SpokenIsWords(s: string)
    ensures Flat(Words(s)) == Spoken(s)
    decreases |s|
  {
    if s != "" {
      if IsSpace(s[0]) {
        SpokenIsWords(s[1..]);
      } else {
        var n := WordEnd(s);
        SpokenIsWords(s[n..]);
        SpokenOfWord(s[..n]);
        SpokenJoin(s[..n], s[n..]);
        assert s == s[..n] + s[n..];
        assert ([s[..n]] + Words(s[n..]))[1..] == Words(s[n..]);
      }
    }
  }

  lemma {:induction false} SpokenOfWord(w: string)
    requires forall i :: 0 <= i < |w| ==> !IsSpace(w[i])
    ensures Spoken(w) == w
  {
    if w != "" {
      SpokenOfWord(w[1..]);
      assert w == [w[0]] + w[1..];
    }
  }

  function Flat(parts: seq<string>): string {
    if parts == [] then "" else parts[0] + Flat(parts[1..])
  }

  // Nothing that is heard is lost, added or reordered, and no word is split or glued to another.
  lemma CleaningKeepsWords(text: string)
    ensures Words(CleanSpokenText(text)) == Words(WithoutMarkup(WithoutEmoji(text)))
    ensures Spoken(CleanSpokenText(text)) == Heard(text)
  {
    var kept := WithoutMarkup(WithoutEmoji(text));
    StripKeepsWords(Collapsed(kept));
    CollapsedKeepsWords(kept);
    SpokenIsWords(CleanSpokenText(text));
    SpokenIsWords(kept);
    HeardThroughFilters(text);
  }

  lemma {:induction false} SpokenHas(s: string)
    ensures forall c :: c in Spoken(s) <==> c in s && !IsSpace(c)
  {
    if s != "" {
      SpokenHas(s[1..]);
      assert forall c :: c in s <==> c == s[0] || c in s[1..];
    }
  }

  lemma {:induction false} HeardHas(s: string)
    ensures forall c :: c in Heard(s) <==> c in s && !IsEmoji(c) && !IsMarkup(c) && !IsSpace(c)
  {
    if s != "" {
      HeardHas(s[1..]);
      assert forall c :: c in s <==> c == s[0] || c in s[1..];
    }
  }

  lemma CleanedHas(text: string, c: char)
    ensures c != ' ' ==> (c in CleanSpokenText(text) <==> c in text && !IsEmoji(c) && !IsMarkup(c) && !IsSpace(c))
  {
    CleaningKeepsWords(text);
    SpokenHas(CleanSpokenText(text));
    HeardHas(text);
    CleanIsSpeakable(text);
    if c in CleanSpokenText(text) {
      var k :| 0 <= k < |CleanSpokenText(text)| && CleanSpokenText(text)[k] == c;
    }
  }

  // What is left of a text: everything but emoji, marks of formatting and white space, and blanks between.
  lemma CleanedHasIff(text: string, c: char)
    requires c != ' '
    ensures
      var n := c as int;
      c in CleanSpokenText(text) <==>
        && c in text && c !in "*_#`[]{}<>"
        && !(0x1F1E0 <= n <= 0x1F1FF) && !(0x1F300 <= n <= 0x1FAFF) && !(0x2600 <= n <= 0x27BF)
        && !(9 <= n <= 13) && !(28 <= n <= 31) && n !in {0x85, 0xA0, 0x1680, 0x2028, 0x2029, 0x202F, 0x205F, 0x3000}
        && !(0x2000 <= n <= 0x200A)
  {
    CleanedHas(text, c);
  }

  // ------------------------------------------------------------------
  // Splitting
  // ------------------------------------------------------------------

  // The first white space after a mark that ends a sentence, at or after `from`.
  function BreakAt(s: string, from: nat): (k: nat)
    requires 0 < from
    ensures from <= k
    ensures k < |s| ==> IsSpace(s[k])
    decreases |s| - from
  {
    if from >= |s| then from
    else if EndsSentence(s[from - 1]) && IsSpace(s[from]) then from
    else BreakAt(s, from + 1)
  }

  // The pieces between the runs of white space that follow the end of a sentence.
  function Parts(s: string): (parts: seq<string>)
    ensures parts != []
    decreases |s|
  {
    var k := BreakAt(s, 1);
    if k >= |s| then [s]
    else
      [s[..k]] + Parts(StripLeft(s[k..]))
  }

  // Stripped, without the blank ones.
  function Sentences(parts: seq<string>): seq<string> {
    if parts == [] then []
    else (if Strip(parts[0]) == "" then [] else [Strip(parts[0])]) + Sentences(parts[1..])
  }

  // The last blank before `n`, or -1.
  function LastBlank(s: string, n: nat): (k: int)
    requires n <= |s|
    ensures -1 <= k < n
    ensures k >= 0 ==> s[k] == ' '
    ensures forall i :: k < i < n ==> s[i] != ' '
  {
    if n == 0 then -1 else if s[n - 1] == ' ' then n - 1 else LastBlank(s, n - 1)
  }

  // Where an overlong sentence is cut: at its last blank that leaves a chunk short enough, or else through a word.
  function SplitAt(s: string, maxChars: nat): (k: nat)
    requires 1 <= maxChars < |s|
    ensures 1 <= k <= maxChars
  {
    var k := LastBlank(s, maxChars + 1);
    if k > 0 then k else maxChars
  }

  // The chunks of one sentence.
  function SentenceChunks(s: string, maxChars: nat): seq<string>
    requires maxChars >= 1
    decreases |s|
  {
    if |s| > maxChars then
      var k := SplitAt(s, maxChars);
      [Strip(s[..k])] + SentenceChunks(Strip(s[k..]), maxChars)
    else if s != "" then [s]
    else []
  }

  function AllChunks(sentences: seq<string>, maxChars: nat): seq<string>
    requires maxChars >= 1
  {
    if sentences == [] then [] else SentenceChunks(sentences[0], maxChars) + AllChunks(sentences[1..], maxChars)
  }

  // The sentences, or the text itself when it has none.
  function ToSpeak(text: string): seq<string> {
    var sentences := Sentences(Parts(text));
    if sentences == [] then [text] else sentences
  }

  const MAX_CHUNKS := 8

  function SpokenChunks(text: string, maxChars: nat): seq<string>
    requires maxChars >= 1
  {
    var all := AllChunks(ToSpeak(text), maxChars);
    if |all| <= MAX_CHUNKS then all else all[..MAX_CHUNKS]
  }

  // The inner loop: one sentence is cut until the rest fits.
  method CutSentence(before: seq<string>, whole: string, maxChars: nat) returns (chunks: seq<string>)
    requires maxChars >= 1
    ensures chunks == before + SentenceChunks(whole, maxChars)
  {
    var sentence := whole;
    chunks := before;
    while |sentence| > maxChars
      invariant chunks + SentenceChunks(sentence, maxChars) == before + SentenceChunks(whole, maxChars)
      decreases |sentence|
    {
      var splitAt := LastBlank(sentence, maxChars + 1);
      splitAt := if splitAt > 0 then splitAt else maxChars;
      var chunk, rest := Strip(sentence[..splitAt]), Strip(sentence[splitAt..]);
      Associate(chunks, [chunk], SentenceChunks(rest, maxChars));
      chunks := chunks + [chunk];
      sentence := rest;
    }
    if sentence != "" {
      chunks := chunks + [sentence];
    }
  }

  lemma AllChunksFrom(sentences: seq<string>, i: nat, maxChars: nat)
    requires i < |sentences| && maxChars >= 1
    ensures AllChunks(sentences[i..], maxChars) ==
            SentenceChunks(sentences[i], maxChars) + AllChunks(sentences[i + 1..], maxChars)
  {
    assert sentences[i..][1..] == sentences[i + 1..];
  }

  method SplitSpokenText(text: string, maxChars: nat) returns (chunks: seq<string>)
    requires maxChars >= 1
    ensures chunks == SpokenChunks(text, maxChars)
    ensures chunks <= AllChunks(ToSpeak(text), maxChars)
    ensures |chunks| == if |AllChunks(ToSpeak(text), maxChars)| < 8 then |AllChunks(ToSpeak(text), maxChars)| else 8
  {
    var sentences := ToSpeak(text);
    ghost var all := AllChunks(sentences, maxChars);
    chunks := [];
    assert sentences[0..] == sentences && [] + all == all;
    var i := 0;
    while i < |sentences|
      invariant i <= |sentences|
      invariant chunks + AllChunks(sentences[i..], maxChars) == all
    {
      AllChunksFrom(sentences, i, maxChars);
      Associate(chunks, SentenceChunks(sentences[i], maxChars), AllChunks(sentences[i + 1..], maxChars));
      chunks := CutSentence(chunks, sentences[i], maxChars);
      i := i + 1;
    }
    assert chunks + [] == chunks;
    if |chunks| > MAX_CHUNKS {
      chunks := chunks[..MAX_CHUNKS];
    }
  }

  // ------------------------------------------------------------------
  // What the chunks say
  // ------------------------------------------------------------------

  function SpokenAll(chunks: seq<string>): string {
    if chunks == [] then "" else Spoken(chunks[0]) + SpokenAll(chunks[1..])
  }

  function WordsAll(chunks: seq<string>): seq<string> {
    if chunks == [] then [] else Words(chunks[0]) + WordsAll(chunks[1..])
  }

  // A word no longer than a chunk stays whole; a longer one is cut into full chunks and a rest.
  function Pieces(word: string, maxChars: nat): seq<string>
    requires maxChars >= 1
    decreases |word|
  {
    if |word| <= maxChars then [word] else [word[..maxChars]] + Pieces(word[maxChars..], maxChars)
  }

  function AllPieces(words: seq<string>, maxChars: nat): seq<string>
    requires maxChars >= 1
  {
    if words == [] then [] else Pieces(words[0], maxChars) + AllPieces(words[1..], maxChars)
  }

  ghost predicate Trimmed(s: string) {
    s != "" ==> !IsSpace(s[0]) && !IsSpace(s[|s| - 1])
  }

  ghost predicate OnlyBlanks(s: string) {
    forall i :: 0 <= i < |s| && IsSpace(s[i]) ==> s[i] == ' '
  }

  lemma {:induction false} SpokenAllJoin(a: seq<string>, b: seq<string>)
    ensures SpokenAll(a + b) == SpokenAll(a) + SpokenAll(b)
  {
    if a == [] {
      assert a + b == b;
    } else {
      SpokenAllJoin(a[1..], b);
      assert (a + b)[0] == a[0] && (a + b)[1..] == a[1..] + b;
      Associate(Spoken(a[0]), SpokenAll(a[1..]), SpokenAll(b));
    }
  }

  lemma {:induction false} WordsAllJoin(a: seq<string>, b: seq<string>)
    ensures WordsAll(a + b) == WordsAll(a) + WordsAll(b)
  {
    if a == [] {
      assert a + b == b;
    } else {
      WordsAllJoin(a[1..], b);
      assert (a + b)[0] == a[0] && (a + b)[1..] == a[1..] + b;
      Associate(Words(a[0]), WordsAll(a[1..]), WordsAll(b));
    }
  }

  lemma {:induction false} AllPiecesJoin(a: seq<string>, b: seq<string>, maxChars: nat)
    requires maxChars >= 1
    ensures AllPieces(a + b, maxChars) == AllPieces(a, maxChars) + AllPieces(b, maxChars)
  {
    if a == [] {
      assert a + b == b;
    } else {
      AllPiecesJoin(a[1..], b, maxChars);
      assert (a + b)[0] == a[0] && (a + b)[1..] == a[1..] + b;
      Associate(Pieces(a[0], maxChars), AllPieces(a[1..], maxChars), AllPieces(b, maxChars));
    }
  }

  // A stretch of text no longer than a chunk has only words that stay whole.
  lemma {:induction false} ShortWordsStay(s: string, maxChars: nat)
    requires 1 <= maxChars && |s| <= maxChars
    ensures AllPieces(Words(s), maxChars) == Words(s)
    decreases |s|
  {
    if s != "" {
      if IsSpace(s[0]) {
        ShortWordsStay(s[1..], maxChars);
      } else {
        var n := WordEnd(s);
        ShortWordsStay(s[n..], maxChars);
        assert ([s[..n]] + Words(s[n..]))[1..] == Words(s[n..]);
      }
    }
  }

  lemma {:induction false} ChunksFit(s: string, maxChars: nat)
    requires maxChars >= 1
    ensures forall c :: c in SentenceChunks(s, maxChars) ==> |c| <= maxChars
    decreases |s|
  {
    if |s| > maxChars {
      ChunksFit(Strip(s[SplitAt(s, maxChars)..]), maxChars);
    }
  }

  lemma SpokenHalves(s: string, k: nat)
    requires k <= |s|
    ensures Spoken(s) == Spoken(Strip(s[..k])) + Spoken(Strip(s[k..]))
  {
    var head, tail := s[..k], s[k..];
    Halves(s, k);
    StripKeepsWords(head);
    StripKeepsWords(tail);
    SpokenJoin(head, tail);
  }

  lemma Halves(s: string, k: nat)
    requires k <= |s|
    ensures s == s[..k] + s[k..]
  {
  }

  lemma WordsHalves(s: string, k: nat, maxChars: nat)
    requires maxChars >= 1 && k < |s| && IsSpace(s[k])
    ensures AllPieces(Words(s), maxChars)
         == AllPieces(Words(Strip(s[..k])), maxChars) + AllPieces(Words(Strip(s[k..])), maxChars)
  {
    var head, tail := s[..k], s[k..];
    assert s == head + tail;
    StripKeepsWords(head);
    StripKeepsWords(tail);
    WordsJoin(head, tail);
    AllPiecesJoin(Words(head), Words(tail), maxChars);
  }

  lemma {:induction false} ChunksSaySentence(s: string, maxChars: nat)
    requires maxChars >= 1
    ensures SpokenAll(SentenceChunks(s, maxChars)) == Spoken(s)
    decreases |s|
  {
    if |s| > maxChars {
      var k := SplitAt(s, maxChars);
      var head, rest := Strip(s[..k]), Strip(s[k..]);
      SpokenHalves(s, k);
      ChunksSaySentence(rest, maxChars);
      assert ([head] + SentenceChunks(rest, maxChars))[1..] == SentenceChunks(rest, maxChars);
    } else if s != "" {
      assert [s][1..] == [];
    }
  }

  lemma StripTrims(s: string)
    ensures Trimmed(Strip(s))
    ensures OnlyBlanks(s) ==> OnlyBlanks(Strip(s))
    ensures Strip(s) == "" <==> Blank(s)
  {
    var i, j := StripIs(s);
    assert i == j ==> s == s[..i] + s[j..];
  }

  lemma TrimmedStays(s: string)
    requires Trimmed(s)
    ensures Strip(s) == s
  {
  }

  lemma {:induction false} ChunksNonEmpty(s: string, maxChars: nat)
    requires maxChars >= 1 && Trimmed(s) && s != ""
    ensures forall c :: c in SentenceChunks(s, maxChars) ==> c != ""
    decreases |s|
  {
    if |s| > maxChars {
      var k := SplitAt(s, maxChars);
      assert s[..k][0] == s[0] && s[k..][|s| - k - 1] == s[|s| - 1];
      StripTrims(s[..k]);
      StripTrims(s[k..]);
      ChunksNonEmpty(Strip(s[k..]), maxChars);
    }
  }

  // A sentence that starts with an overlong word loses exactly a full chunk of that word.
  lemma CutThroughWord(s: string, maxChars: nat)
    requires 1 <= maxChars < |s| && Trimmed(s) && OnlyBlanks(s)
    requires LastBlank(s, maxChars + 1) <= 0
    ensures forall i :: 0 <= i <= maxChars ==> !IsSpace(s[i])
    ensures Strip(s[..maxChars]) == s[..maxChars] && Strip(s[maxChars..]) == s[maxChars..]
  {
  }

  lemma CutWordPieces(s: string, maxChars: nat)
    requires 1 <= maxChars < |s| && Trimmed(s) && OnlyBlanks(s)
    requires LastBlank(s, maxChars + 1) <= 0
    ensures Words(s[..maxChars]) == [s[..maxChars]]
    ensures AllPieces(Words(s), maxChars) == [s[..maxChars]] + AllPieces(Words(s[maxChars..]), maxChars)
  {
    CutThroughWord(s, maxChars);
    WordIsOneWord(s[..maxChars]);
    LongWordPieces(s, WordEnd(s), maxChars);
  }

  lemma WordIsOneWord(word: string)
    requires word != "" && forall i :: 0 <= i < |word| ==> !IsSpace(word[i])
    ensures Words(word) == [word]
  {
    WordsFromWord(word, |word|);
    assert word[..|word|] == word && word[|word|..] == "";
  }

  lemma SliceOfSlices(s: string, k: nat, n: nat)
    requires k <= n <= |s|
    ensures s[k..][n - k..] == s[n..] && s[..n][..k] == s[..k] && s[..n][k..] == s[k..][..n - k]
  {
  }

  lemma PiecesOfLongWord(word: string, later: seq<string>, maxChars: nat)
    requires 1 <= maxChars < |word|
    ensures AllPieces([word] + later, maxChars) == [word[..maxChars]] + AllPieces([word[maxChars..]] + later, maxChars)
  {
  }

  lemma RestOfWord(s: string, n: nat, k: nat)
    requires k < n <= |s| && (forall i :: 0 <= i < n ==> !IsSpace(s[i])) && (n < |s| ==> IsSpace(s[n]))
    ensures forall i :: 0 <= i < n - k ==> !IsSpace(s[k..][i])
    ensures n < |s| ==> IsSpace(s[k..][n - k])
  {
  }

  lemma WordsAfterCut(s: string, n: nat, k: nat)
    requires k < n <= |s| && (forall i :: 0 <= i < n ==> !IsSpace(s[i])) && (n < |s| ==> IsSpace(s[n]))
    ensures Words(s[k..]) == [s[..n][k..]] + Words(s[n..])
  {
    RestOfWord(s, n, k);
    WordsFromWord(s[k..], n - k);
    SliceOfSlices(s, k, n);
  }

  lemma LongWordPieces(s: string, n: nat, maxChars: nat)
    requires 1 <= maxChars < n <= |s| && (forall i :: 0 <= i < n ==> !IsSpace(s[i])) && (n < |s| ==> IsSpace(s[n]))
    ensures AllPieces(Words(s), maxChars) == [s[..maxChars]] + AllPieces(Words(s[maxChars..]), maxChars)
  {
    WordsFromWord(s, n);
    WordsAfterCut(s, n, maxChars);
    SliceOfSlices(s, maxChars, n);
    PiecesOfLongWord(s[..n], Words(s[n..]), maxChars);
  }

  // One cut loses no word and splits only one that is longer than a chunk.
  lemma CutKeepsWords(s: string, maxChars: nat)
    requires 1 <= maxChars < |s| && Trimmed(s) && OnlyBlanks(s)
    ensures
      var k := SplitAt(s, maxChars);
      AllPieces(Words(s), maxChars) == Words(Strip(s[..k])) + AllPieces(Words(Strip(s[k..])), maxChars)
  {
    var k := SplitAt(s, maxChars);
    if LastBlank(s, maxChars + 1) > 0 {
      WordsHalves(s, k, maxChars);
      ShortWordsStay(Strip(s[..k]), maxChars);
    } else {
      CutThroughWord(s, maxChars);
      CutWordPieces(s, maxChars);
    }
  }

  lemma WordsAllCons(head: string, later: seq<string>)
    ensures WordsAll([head] + later) == Words(head) + WordsAll(later)
  {
    assert ([head] + later)[1..] == later;
  }

  // The words of the chunks are the words of the sentence, cut only where one is longer than a chunk.
  lemma {:induction false} ChunksKeepWords(s: string, maxChars: nat)
    requires maxChars >= 1 && Trimmed(s) && OnlyBlanks(s)
    ensures WordsAll(SentenceChunks(s, maxChars)) == AllPieces(Words(s), maxChars)
    decreases |s|
  {
    if |s| > maxChars {
      var k := SplitAt(s, maxChars);
      var head, rest := Strip(s[..k]), Strip(s[k..]);
      CutKeepsWords(s, maxChars);
      StripTrims(s[k..]);
      ChunksKeepWords(rest, maxChars);
      WordsAllCons(head, SentenceChunks(rest, maxChars));
    } else {
      ShortWordsStay(s, maxChars);
      if s != "" {
        assert [s][1..] == [];
      }
    }
  }

  // ------------------------------------------------------------------
  // Sentences
  // ------------------------------------------------------------------

  lemma StripLeftKeepsWords(s: string)
    ensures Words(StripLeft(s)) == Words(s)
    ensures OnlyBlanks(s) ==> OnlyBlanks(StripLeft(s))
  {
  }

  lemma {:induction false} PartsKeepWords(s: string)
    ensures WordsAll(Parts(s)) == Words(s)
    ensures OnlyBlanks(s) ==> forall p :: p in Parts(s) ==> OnlyBlanks(p)
    decreases |s|
  {
    var k := BreakAt(s, 1);
    if k >= |s| {
      assert [s][1..] == [];
    } else {
      var rest := StripLeft(s[k..]);
      StripLeftKeepsWords(s[k..]);
      PartsKeepWords(rest);
      assert s == s[..k] + s[k..];
      WordsJoin(s[..k], s[k..]);
      assert ([s[..k]] + Parts(rest))[1..] == Parts(rest);
    }
  }

  lemma {:induction false} SentencesKeepWords(parts: seq<string>)
    ensures WordsAll(Sentences(parts)) == WordsAll(parts)
    ensures forall s :: s in Sentences(parts) ==> Trimmed(s) && s != ""
    ensures (forall p :: p in parts ==> OnlyBlanks(p)) ==> forall s :: s in Sentences(parts) ==> OnlyBlanks(s)
  {
    if parts != [] {
      SentencesKeepWords(parts[1..]);
      assert forall p :: p in parts[1..] ==> p in parts;
      StripKeepsWords(parts[0]);
      StripTrims(parts[0]);
      if Strip(parts[0]) == "" {
        BlankHasNoWords(parts[0]);
        assert Sentences(parts) == Sentences(parts[1..]);
      } else {
        assert ([Strip(parts[0])] + Sentences(parts[1..]))[1..] == Sentences(parts[1..]);
      }
    }
  }

  lemma {:induction false} SpokenIsAllWords(chunks: seq<string>)
    ensures SpokenAll(chunks) == Flat(WordsAll(chunks))
  {
    if chunks != [] {
      SpokenIsAllWords(chunks[1..]);
      SpokenIsWords(chunks[0]);
      FlatJoin(Words(chunks[0]), WordsAll(chunks[1..]));
    }
  }

  lemma {:induction false} FlatJoin(a: seq<string>, b: seq<string>)
    ensures Flat(a + b) == Flat(a) + Flat(b)
  {
    if a == [] {
      assert a + b == b;
    } else {
      FlatJoin(a[1..], b);
      assert (a + b)[0] == a[0] && (a + b)[1..] == a[1..] + b;
      Associate(a[0], Flat(a[1..]), Flat(b));
    }
  }

  lemma ToSpeakKeepsWords(text: string)
    ensures WordsAll(ToSpeak(text)) == Words(text) && SpokenAll(ToSpeak(text)) == Spoken(text)
  {
    PartsKeepWords(text);
    SentencesKeepWords(Parts(text));
    SpokenIsAllWords(ToSpeak(text));
    SpokenIsWords(text);
    assert [text][1..] == [];
  }

  // The marks after which a sentence ends when white space follows: full stop, exclamation and question mark, and the
  // Arabic question mark and semicolon.
  ghost predicate IsMark(c: char) {
    c in {'.', '!', '?', 0x061F as char, 0x061B as char}
  }

  // No sentence ends inside.
  ghost predicate OneSentence(s: string) {
    forall i {:trigger s[i]} :: 0 < i < |s| && IsSpace(s[i]) ==> !IsMark(s[i - 1])
  }

  ghost predicate EndsWithMark(s: string) {
    s != "" && IsMark(s[|s| - 1])
  }

  lemma {:induction false} BreakAtIs(s: string, from: nat)
    requires 0 < from
    ensures forall i {:trigger s[i]} :: from <= i < BreakAt(s, from) && i < |s| && IsSpace(s[i]) ==> !IsMark(s[i - 1])
    ensures BreakAt(s, from) < |s| ==> IsMark(s[BreakAt(s, from) - 1])
    decreases |s| - from
  {
    if from < |s| && !(EndsSentence(s[from - 1]) && IsSpace(s[from])) {
      BreakAtIs(s, from + 1);
    }
  }

  lemma {:induction false} PartsAreSentences(s: string)
    ensures forall p :: p in Parts(s) ==> OneSentence(p)
    ensures forall i :: 0 <= i < |Parts(s)| - 1 ==> EndsWithMark(Parts(s)[i])
    decreases |s|
  {
    var k := BreakAt(s, 1);
    BreakAtIs(s, 1);
    if k < |s| {
      PartsAreSentences(StripLeft(s[k..]));
    }
  }

  lemma StripKeepsSentence(s: string)
    requires OneSentence(s)
    ensures OneSentence(Strip(s)) && (EndsWithMark(s) ==> EndsWithMark(Strip(s)))
  {
    var i, j := StripIs(s);
    var r := s[i..j];
    forall k {:trigger r[k]} | 0 < k < |r| && IsSpace(r[k])
      ensures !IsMark(r[k - 1])
    {
      assert r[k] == s[i + k] && r[k - 1] == s[i + k - 1];
    }
    if EndsWithMark(s) {
      MarkIsKept(s, i, j);
    }
  }

  lemma BlankSuffix(s: string, j: nat)
    requires j <= |s| && Blank(s[j..])
    ensures forall m :: j <= m < |s| ==> IsSpace(s[m])
  {
    forall m | j <= m < |s|
      ensures IsSpace(s[m])
    {
      assert s[j..][m - j] == s[m];
    }
  }

  lemma MarkIsKept(s: string, i: nat, j: nat)
    requires EndsWithMark(s) && i <= j <= |s| && Blank(s[..i]) && Blank(s[j..])
    ensures EndsWithMark(s[i..j])
  {
    BlankPrefix(s, i);
    BlankSuffix(s, j);
  }

  // A text is split exactly where sentences end: no sentence ends inside a sentence, and every one but the last ends with
  // a mark.
  lemma {:induction false} SentencesAreWhole(parts: seq<string>)
    requires forall p :: p in parts ==> OneSentence(p)
    requires forall i :: 0 <= i < |parts| - 1 ==> EndsWithMark(parts[i])
    ensures forall s :: s in Sentences(parts) ==> OneSentence(s)
    ensures forall i :: 0 <= i < |Sentences(parts)| - 1 ==> EndsWithMark(Sentences(parts)[i])
  {
    if parts != [] {
      var rest := parts[1..];
      assert parts[0] in parts && forall p :: p in rest ==> p in parts;
      SentencesAreWhole(rest);
      StripKeepsSentence(parts[0]);
      if Sentences(rest) != [] {
        assert rest != [];
      }
    }
  }

  lemma TextIsSplitAtSentences(text: string)
    ensures forall s :: s in ToSpeak(text) ==> OneSentence(s)
    ensures forall i :: 0 <= i < |ToSpeak(text)| - 1 ==> EndsWithMark(ToSpeak(text)[i])
  {
    PartsAreSentences(text);
    SentencesAreWhole(Parts(text));
    if Sentences(Parts(text)) == [] {
      NoSentencesIsBlank(text);
    }
  }

  lemma NoSentencesIsBlank(text: string)
    requires Sentences(Parts(text)) == []
    ensures Blank(text) && OneSentence(text)
  {
    PartsKeepWords(text);
    SentencesKeepWords(Parts(text));
    NoWordsIsBlank(text);
  }

  lemma SliceKeepsSentence(s: string, i: nat, j: nat)
    requires i <= j <= |s| && OneSentence(s)
    ensures OneSentence(s[i..j])
  {
    var r := s[i..j];
    forall k {:trigger r[k]} | 0 < k < |r| && IsSpace(r[k])
      ensures !IsMark(r[k - 1])
    {
      assert r[k] == s[i + k] && r[k - 1] == s[i + k - 1];
    }
  }

  lemma {:induction false} ChunksKeepSentence(s: string, maxChars: nat)
    requires maxChars >= 1 && OneSentence(s)
    ensures forall c :: c in SentenceChunks(s, maxChars) ==> OneSentence(c)
    decreases |s|
  {
    if |s| > maxChars {
      var k := SplitAt(s, maxChars);
      SliceKeepsSentence(s, 0, k);
      SliceKeepsSentence(s, k, |s|);
      assert s[0..k] == s[..k] && s[k..|s|] == s[k..];
      StripKeepsSentence(s[..k]);
      StripKeepsSentence(s[k..]);
      ChunksKeepSentence(Strip(s[k..]), maxChars);
    }
  }

  lemma {:induction false} AllChunksKeepSentences(sentences: seq<string>, maxChars: nat)
    requires maxChars >= 1 && forall s :: s in sentences ==> OneSentence(s)
    ensures forall c :: c in AllChunks(sentences, maxChars) ==> OneSentence(c)
  {
    if sentences != [] {
      assert sentences[0] in sentences && forall s :: s in sentences[1..] ==> s in sentences;
      ChunksKeepSentence(sentences[0], maxChars);
      AllChunksKeepSentences(sentences[1..], maxChars);
    }
  }

  // No chunk reaches across the end of a sentence.
  lemma ChunksKeepToSentences(text: string, maxChars: nat)
    requires maxChars >= 1
    ensures forall c :: c in AllChunks(ToSpeak(text), maxChars) ==> OneSentence(c)
  {
    TextIsSplitAtSentences(text);
    AllChunksKeepSentences(ToSpeak(text), maxChars);
  }

  // ------------------------------------------------------------------
  // The whole text
  // ------------------------------------------------------------------

  lemma {:induction false} AllChunksFit(sentences: seq<string>, maxChars: nat)
    requires maxChars >= 1
    ensures forall c :: c in AllChunks(sentences, maxChars) ==> |c| <= maxChars
    ensures SpokenAll(AllChunks(sentences, maxChars)) == SpokenAll(sentences)
  {
    if sentences != [] {
      ChunksFit(sentences[0], maxChars);
      ChunksSaySentence(sentences[0], maxChars);
      AllChunksFit(sentences[1..], maxChars);
      SpokenAllJoin(SentenceChunks(sentences[0], maxChars), AllChunks(sentences[1..], maxChars));
    }
  }

  lemma {:induction false} AllChunksNonEmpty(sentences: seq<string>, maxChars: nat)
    requires maxChars >= 1
    requires forall s :: s in sentences ==> Trimmed(s) && s != ""
    ensures forall c :: c in AllChunks(sentences, maxChars) ==> c != ""
  {
    if sentences != [] {
      assert sentences[0] in sentences;
      ChunksNonEmpty(sentences[0], maxChars);
      assert forall s :: s in sentences[1..] ==> s in sentences;
      AllChunksNonEmpty(sentences[1..], maxChars);
    }
  }

  lemma {:induction false} AllChunksKeepWords(sentences: seq<string>, maxChars: nat)
    requires maxChars >= 1
    requires forall s :: s in sentences ==> Trimmed(s) && OnlyBlanks(s)
    ensures WordsAll(AllChunks(sentences, maxChars)) == AllPieces(WordsAll(sentences), maxChars)
  {
    if sentences != [] {
      assert sentences[0] in sentences;
      ChunksKeepWords(sentences[0], maxChars);
      assert forall s :: s in sentences[1..] ==> s in sentences;
      AllChunksKeepWords(sentences[1..], maxChars);
      WordsAllJoin(SentenceChunks(sentences[0], maxChars), AllChunks(sentences[1..], maxChars));
      AllPiecesJoin(Words(sentences[0]), WordsAll(sentences[1..]), maxChars);
    }
  }

  // Before the cut to eight: every chunk is short enough, and what is spoken is the whole text in order.
  lemma ChunksSayTheText(text: string, maxChars: nat)
    requires maxChars >= 1
    ensures forall c :: c in AllChunks(ToSpeak(text), maxChars) ==> |c| <= maxChars
    ensures SpokenAll(AllChunks(ToSpeak(text), maxChars)) == Spoken(text)
  {
    AllChunksFit(ToSpeak(text), maxChars);
    ToSpeakKeepsWords(text);
  }

  // No chunk is empty, unless the text is nothing but white space and too long for one chunk.
  lemma ChunksAreNonEmptyIff(text: string, maxChars: nat)
    requires maxChars >= 1
    ensures "" !in AllChunks(ToSpeak(text), maxChars) <==> !Blank(text) || |text| <= maxChars
  {
    var sentences := Sentences(Parts(text));
    PartsKeepWords(text);
    SentencesKeepWords(Parts(text));
    if sentences != [] {
      AllChunksNonEmpty(sentences, maxChars);
      assert sentences[0] in sentences && Words(sentences[0]) != [];
      if Blank(text) {
        BlankHasNoWords(text);
      }
    } else {
      NoWordsIsBlank(text);
      assert AllChunks([text], maxChars) == SentenceChunks(text, maxChars) by { assert [text][1..] == []; }
      if |text| > maxChars {
        StripTrims(text[..SplitAt(text, maxChars)]);
        assert "" in SentenceChunks(text, maxChars);
      }
    }
  }

  lemma {:induction false} NoWordsIsBlank(s: string)
    requires Words(s) == []
    ensures Blank(s)
  {
    if s != "" {
      assert IsSpace(s[0]);
      NoWordsIsBlank(s[1..]);
      assert forall i :: 0 < i < |s| ==> s[i] == s[1..][i - 1];
    }
  }

  // A cleaned reply: its words are spoken in order and whole, except that a word longer than a chunk is cut
  // into full chunks and a rest.
  lemma ReplyIsSpoken(raw: string, maxChars: nat)
    requires maxChars >= 1
    ensures
      var text := CleanSpokenText(raw);
      var all := AllChunks(ToSpeak(text), maxChars);
      && WordsAll(all) == AllPieces(Words(text), maxChars)
      && SpokenAll(all) == Heard(raw)
      && (forall c :: c in all ==> 1 <= |c| <= maxChars)
  {
    var text := CleanSpokenText(raw);
    CleanIsSpeakable(raw);
    CleaningKeepsWords(raw);
    PartsKeepWords(text);
    SentencesKeepWords(Parts(text));
    ToSpeakKeepsWords(text);
    if Sentences(Parts(text)) == [] {
      assert forall s :: s in ToSpeak(text) ==> s == text;
    }
    AllChunksKeepWords(ToSpeak(text), maxChars);
    ChunksSayTheText(text, maxChars);
    ChunksAreNonEmptyIff(text, maxChars);
    assert text != "" ==> !IsSpace(text[0]);
  }

  // With no word longer than a chunk, no word is cut.
  lemma {:induction false} ShortWordsAreWhole(words: seq<string>, maxChars: nat)
    requires maxChars >= 1
    ensures AllPieces(words, maxChars) == words <==> forall w :: w in words ==> |w| <= maxChars
  {
    if words != [] {
      ShortWordsAreWhole(words[1..], maxChars);
      assert forall w :: w in words <==> w == words[0] || w in words[1..];
      assert words == [words[0]] + words[1..];
    }
  }

  // ------------------------------------------------------------------
  // Chunks are as long as they can be
  // ------------------------------------------------------------------

  // Stripping the first `k` characters to `j` keeps the first word, as far as it stands among them.
  lemma StripEndsAfterWord(s: string, k: nat, j: nat, n: nat)
    requires j <= k <= |s| && n == (if WordEnd(s) <= k then WordEnd(s) else k)
    requires forall i :: j <= i < k ==> IsSpace(s[i])
    ensures n <= j && forall i :: 0 <= i < n ==> !IsSpace(s[..j][i])
    ensures n < j ==> IsSpace(s[..j][n])
  {
    assert j < k ==> IsSpace(s[j]);
  }

  lemma BlankPrefix(s: string, i: nat)
    requires i <= |s| && Blank(s[..i])
    ensures forall m :: 0 <= m < i ==> IsSpace(s[m])
  {
    forall m | 0 <= m < i
      ensures IsSpace(s[m])
    {
      assert s[..i][m] == s[m];
    }
  }

  lemma StripHead(s: string, k: nat) returns (j: nat)
    requires 0 < k <= |s| && !IsSpace(s[0])
    ensures j <= k && Strip(s[..k]) == s[..j] && forall i :: j <= i < k ==> IsSpace(s[i])
  {
    var head, i := s[..k], 0;
    i, j := StripIs(head);
    assert head[0] == s[0];
    BlankPrefix(head, i);
    forall m | j <= m < k
      ensures IsSpace(s[m])
    {
      assert head[j..][m - j] == s[m];
    }
  }

  lemma FirstChunkWord(s: string, maxChars: nat)
    requires maxChars >= 1 && Trimmed(s) && OnlyBlanks(s) && s != ""
    ensures SentenceChunks(s, maxChars) != []
    ensures WordEnd(SentenceChunks(s, maxChars)[0]) == if WordEnd(s) <= maxChars then WordEnd(s) else maxChars
  {
    if |s| > maxChars {
      var k := SplitAt(s, maxChars);
      var j := StripHead(s, k);
      var n := if WordEnd(s) <= k then WordEnd(s) else k;
      StripEndsAfterWord(s, k, j, n);
      FirstWord(s[..j], n);
    }
  }

  lemma SliceKeepsBlanks(s: string, i: nat, j: nat)
    requires i <= j <= |s| && SingleBlanks(s)
    ensures SingleBlanks(s[i..j])
  {
  }

  lemma StripAtBlank(s: string, k: nat)
    requires 0 < k < |s| && s[k] == ' ' && Trimmed(s) && SingleBlanks(s)
    ensures k + 1 < |s| && Strip(s[..k]) == s[..k] && Strip(s[k..]) == s[k + 1..]
  {
    assert IsSpace(s[k]) && !IsSpace(s[k - 1]);
    var head, tail := s[..k], s[k..];
    assert head[0] == s[0] && head[k - 1] == s[k - 1];
    TrimmedStays(head);
    assert k + 1 < |s| && !IsSpace(s[k + 1]) by { if k + 1 < |s| && IsSpace(s[k + 1]) { assert false; } }
    assert tail[1..] == s[k + 1..];
    assert s[k + 1..][0] == s[k + 1] && s[k + 1..][|s| - k - 2] == s[|s| - 1];
    TrimmedStays(s[k + 1..]);
  }

  lemma CutAtBlankIsLate(s: string, maxChars: nat)
    requires 1 <= maxChars < |s| && Trimmed(s) && SingleBlanks(s) && LastBlank(s, maxChars + 1) > 0
    ensures
      var k := SplitAt(s, maxChars);
      k + 1 < |s| && Strip(s[..k]) == s[..k] && Strip(s[k..]) == s[k + 1..] && k + 1 + WordEnd(s[k + 1..]) > maxChars
  {
    var k := SplitAt(s, maxChars);
    StripAtBlank(s, k);
    var e := WordEnd(s[k + 1..]);
    if k + 1 + e < |s| {
      assert s[k + 1..][e] == s[k + 1 + e];
    }
  }

  lemma SuffixIsSentence(s: string, k: nat)
    requires k < |s| && !IsSpace(s[k]) && Trimmed(s) && SingleBlanks(s)
    ensures Trimmed(s[k..]) && SingleBlanks(s[k..]) && s[k..] != ""
  {
  }

  // Where a sentence is cut between words, the next word would not have fitted.
  lemma CutIsLate(s: string, maxChars: nat)
    requires 1 <= maxChars < |s| && Trimmed(s) && SingleBlanks(s)
    ensures
      var k := SplitAt(s, maxChars);
      && SingleBlanks(Strip(s[k..])) && Trimmed(Strip(s[k..])) && Strip(s[k..]) != ""
      && (|Strip(s[..k])| == maxChars || |Strip(s[..k])| + 1 + WordEnd(Strip(s[k..])) > maxChars)
  {
    var k := SplitAt(s, maxChars);
    if LastBlank(s, maxChars + 1) > 0 {
      CutAtBlankIsLate(s, maxChars);
      assert IsSpace(s[k]) && !IsSpace(s[k + 1]);
      SuffixIsSentence(s, k + 1);
    } else {
      CutThroughWord(s, maxChars);
      SuffixIsSentence(s, k);
    }
  }

  lemma FirstCut(s: string, maxChars: nat) returns (head: string, rest: string)
    requires 1 <= maxChars < |s| && Trimmed(s) && SingleBlanks(s)
    ensures SentenceChunks(s, maxChars) == [head] + SentenceChunks(rest, maxChars)
    ensures SingleBlanks(rest) && Trimmed(rest) && rest != ""
    ensures |head| == maxChars || |head| + 1 + WordEnd(rest) > maxChars
  {
    CutIsLate(s, maxChars);
    head, rest := Strip(s[..SplitAt(s, maxChars)]), Strip(s[SplitAt(s, maxChars)..]);
  }

  lemma ConsAt(head: string, later: seq<string>, i: nat)
    requires i < |later|
    ensures ([head] + later)[i + 1] == later[i] && ([head] + later)[i] == if i == 0 then head else later[i - 1]
  {
  }

  // A chunk of a cleaned sentence could not have taken the next word as well.
  lemma {:induction false} ChunksAreFull(s: string, maxChars: nat, i: nat)
    requires maxChars >= 1 && Trimmed(s) && SingleBlanks(s)
    requires i + 1 < |SentenceChunks(s, maxChars)|
    ensures |SentenceChunks(s, maxChars)[i]| + 1 + WordEnd(SentenceChunks(s, maxChars)[i + 1]) > maxChars
    decreases i
  {
    if |s| > maxChars {
      var head, rest := FirstCut(s, maxChars);
      ConsAt(head, SentenceChunks(rest, maxChars), i);
      if i > 0 {
        ChunksAreFull(rest, maxChars, i - 1);
      } else {
        FirstChunkWord(rest, maxChars);
      }
    }
  }

  lemma StripKeepsSingleBlanks(s: string)
    requires SingleBlanks(s)
    ensures SingleBlanks(Strip(s)) && SingleBlanks(StripLeft(s))
  {
    var i, j := StripIs(s);
    SliceKeepsBlanks(s, i, j);
    var n := StripLeftIs(s);
    SliceKeepsBlanks(s, n, |s|);
    assert s[n..] == s[n..|s|];
  }

  lemma {:induction false} PartsKeepSingleBlanks(s: string)
    requires SingleBlanks(s)
    ensures forall p :: p in Parts(s) ==> SingleBlanks(p)
    decreases |s|
  {
    var k := BreakAt(s, 1);
    if k < |s| {
      SliceKeepsBlanks(s, 0, k);
      SliceKeepsBlanks(s, k, |s|);
      assert s[..k] == s[0..k] && s[k..] == s[k..|s|];
      StripKeepsSingleBlanks(s[k..]);
      PartsKeepSingleBlanks(StripLeft(s[k..]));
    }
  }

  lemma {:induction false} SentencesKeepSingleBlanks(parts: seq<string>)
    requires forall p :: p in parts ==> SingleBlanks(p)
    ensures forall s :: s in Sentences(parts) ==> SingleBlanks(s) && Trimmed(s)
  {
    if parts != [] {
      assert parts[0] in parts;
      StripKeepsSingleBlanks(parts[0]);
      StripTrims(parts[0]);
      assert forall p :: p in parts[1..] ==> p in parts;
      SentencesKeepSingleBlanks(parts[1..]);
    }
  }

  // In a cleaned reply, a chunk is followed by another of the same sentence only if it could not have taken
  // that one's first word too.
  lemma ReplyChunksAreFull(raw: string, sentence: string, maxChars: nat, i: nat)
    requires maxChars >= 1 && sentence in ToSpeak(CleanSpokenText(raw))
    requires i + 1 < |SentenceChunks(sentence, maxChars)|
    ensures |SentenceChunks(sentence, maxChars)[i]| + 1 + WordEnd(SentenceChunks(sentence, maxChars)[i + 1]) > maxChars
  {
    var text := CleanSpokenText(raw);
    CleanIsSpeakable(raw);
    PartsKeepSingleBlanks(text);
    SentencesKeepSingleBlanks(Parts(text));
    ChunksAreFull(sentence, maxChars, i);
  }

  // ------------------------------------------------------------------
  // Without cleaning
  // ------------------------------------------------------------------

  ghost predicate IsWord(s: string, a: nat, b: nat) {
    && a < b <= |s| && (forall i :: a <= i < b ==> !IsSpace(s[i]))
    && (a == 0 || IsSpace(s[a - 1])) && (b == |s| || IsSpace(s[b]))
  }

  // A cut goes through the word that stands from `a` to `b`, although it would fit a chunk.
  ghost predicate CutsFitting(s: string, maxChars: nat, a: nat, b: nat)
    requires 1 <= maxChars < |s|
  {
    IsWord(s, a, b) && a < SplitAt(s, maxChars) < b <= a + maxChars
  }

  // White space other than a blank stands at `p`, and the word behind it fits but reaches past the cut.
  ghost predicate HiddenBreak(s: string, maxChars: nat, p: nat)
    requires 1 <= maxChars < |s|
  {
    && 0 < p < maxChars && IsSpace(s[p]) && s[p] != ' '
    && maxChars < p + 1 + WordEnd(s[p + 1..]) && WordEnd(s[p + 1..]) <= maxChars && !IsSpace(s[maxChars - 1])
    && LastBlank(s, maxChars + 1) <= 0
  }

  lemma FittingCutHasBreak(s: string, maxChars: nat, a: nat, b: nat)
    requires 1 <= maxChars < |s| && Trimmed(s) && CutsFitting(s, maxChars, a, b)
    ensures a > 0 && HiddenBreak(s, maxChars, a - 1)
  {
    assert !IsSpace(s[SplitAt(s, maxChars)]);
    var rest := s[a..];
    assert forall i :: 0 <= i < |rest| ==> rest[i] == s[a + i];
    FirstWord(rest, b - a);
  }

  lemma BreakHasFittingCut(s: string, maxChars: nat, p: nat)
    requires 1 <= maxChars < |s| && HiddenBreak(s, maxChars, p)
    requires p + 1 < maxChars
    ensures CutsFitting(s, maxChars, p + 1, p + 1 + WordEnd(s[p + 1..]))
  {
    var rest := s[p + 1..];
    assert forall i :: 0 <= i < |rest| ==> rest[i] == s[p + 1 + i];
  }

  // In any sentence, cleaned or not, a cut goes through a word that would fit if and only if no blank precedes the cut
  // and the word is set off only by other white space.
  lemma FittingWordIsCutIff(s: string, maxChars: nat)
    requires 1 <= maxChars < |s| && Trimmed(s)
    ensures (exists a: nat, b: nat :: CutsFitting(s, maxChars, a, b)) <==>
            (exists p: nat :: p + 1 < maxChars && HiddenBreak(s, maxChars, p))
  {
    if a: nat, b: nat :| CutsFitting(s, maxChars, a, b) {
      FittingCutHasBreak(s, maxChars, a, b);
      assert (a - 1) + 1 < maxChars && HiddenBreak(s, maxChars, a - 1);
    }
    if p: nat :| p + 1 < maxChars && HiddenBreak(s, maxChars, p) {
      BreakHasFittingCut(s, maxChars, p);
    }
  }

  // Without cleaning, a tab inside a sentence lets a short word be cut.
  lemma TabLetsShortWordBeCut()
    ensures SentenceChunks("a\tbc", 3) == ["a\tb", "c"]
    ensures Words("a\tbc") == ["a", "bc"]
  {
    var s := "a\tbc";
    assert LastBlank(s, 4) == -1;
    assert s[..3] == "a\tb" && s[3..] == "c";
    assert Words("bc") == ["bc"] by { assert "bc"[..2] == "bc" && "bc"[2..] == ""; }
    assert s[..1] == "a" && s[1..] == "\tbc" && s[1..][1..] == "bc";
  }

  // ------------------------------------------------------------------
  // The cut to eight
  // ------------------------------------------------------------------

  lemma {:induction false} ChunksTrimmed(s: string, maxChars: nat)
    requires maxChars >= 1 && Trimmed(s)
    ensures forall c :: c in SentenceChunks(s, maxChars) ==> Trimmed(c)
    decreases |s|
  {
    if |s| > maxChars {
      var k := SplitAt(s, maxChars);
      StripTrims(s[..k]);
      StripTrims(s[k..]);
      ChunksTrimmed(Strip(s[k..]), maxChars);
    }
  }

  lemma {:induction false} AllChunksTrimmed(sentences: seq<string>, maxChars: nat)
    requires maxChars >= 1 && forall s :: s in sentences ==> Trimmed(s)
    ensures forall c :: c in AllChunks(sentences, maxChars) ==> Trimmed(c)
  {
    if sentences != [] {
      assert sentences[0] in sentences;
      ChunksTrimmed(sentences[0], maxChars);
      assert forall s :: s in sentences[1..] ==> s in sentences;
      AllChunksTrimmed(sentences[1..], maxChars);
    }
  }

  // Every chunk of a cleaned reply has a word of its own.
  lemma ReplyChunksHaveWords(raw: string, maxChars: nat, c: string)
    requires maxChars >= 1 && c in AllChunks(ToSpeak(CleanSpokenText(raw)), maxChars)
    ensures Words(c) != []
  {
    var text := CleanSpokenText(raw);
    ReplyIsSpoken(raw, maxChars);
    CleanIsSpeakable(raw);
    PartsKeepWords(text);
    SentencesKeepWords(Parts(text));
    assert forall s :: s in ToSpeak(text) ==> Trimmed(s);
    AllChunksTrimmed(ToSpeak(text), maxChars);
    assert c != "" && !IsSpace(c[0]);
  }

  // What is kept of a cleaned reply has all its words if and only if nothing is cut off.
  lemma WholeReplyIff(raw: string, maxChars: nat)
    requires maxChars >= 1
    ensures
      var text := CleanSpokenText(raw);
      WordsAll(SpokenChunks(text, maxChars)) == AllPieces(Words(text), maxChars) <==>
      |AllChunks(ToSpeak(text), maxChars)| <= 8
  {
    var text := CleanSpokenText(raw);
    ReplyIsSpoken(raw, maxChars);
    if |AllChunks(ToSpeak(text), maxChars)| > MAX_CHUNKS {
      NinthChunkIsLost(raw, maxChars);
    }
  }

  lemma NinthChunkIsLost(raw: string, maxChars: nat)
    requires maxChars >= 1 && |AllChunks(ToSpeak(CleanSpokenText(raw)), maxChars)| > MAX_CHUNKS
    ensures
      var all := AllChunks(ToSpeak(CleanSpokenText(raw)), maxChars);
      |WordsAll(all[..MAX_CHUNKS])| < |WordsAll(all)|
  {
    var all := AllChunks(ToSpeak(CleanSpokenText(raw)), maxChars);
    var kept, lost := all[..MAX_CHUNKS], all[MAX_CHUNKS..];
    assert all == kept + lost;
    WordsAllJoin(kept, lost);
    ReplyChunksHaveWords(raw, maxChars, all[MAX_CHUNKS]);
    assert lost[0] == all[MAX_CHUNKS];
  }

  lemma {:induction false} SpokenAllFits(chunks: seq<string>, maxChars: nat)
    requires forall c :: c in chunks ==> |c| <= maxChars
    ensures |SpokenAll(chunks)| <= |chunks| * maxChars
  {
    if chunks != [] {
      SpokenAllFits(chunks[1..], maxChars);
      SpokenIsShort(chunks[0]);
      OneMore(|chunks| - 1, maxChars);
    }
  }

  lemma OneMore(n: nat, m: nat)
    ensures (n + 1) * m == m + n * m
  {
  }

  lemma TimesMonotone(a: nat, b: nat, m: nat)
    requires a <= b
    ensures a * m <= b * m
  {
  }

  lemma SpokenIsShort(s: string)
    ensures |Spoken(s)| <= |s|
  {
  }

  // A reply that says more than eight chunks can hold is never kept whole.
  lemma LongReplyIsNotWhole(raw: string, maxChars: nat)
    requires maxChars >= 1 && |Heard(raw)| > 8 * maxChars
    ensures
      var text := CleanSpokenText(raw);
      WordsAll(SpokenChunks(text, maxChars)) != AllPieces(Words(text), maxChars)
  {
    LongReplyHasManyChunks(raw, maxChars);
    WholeReplyIff(raw, maxChars);
  }

  lemma LongReplyHasManyChunks(raw: string, maxChars: nat)
    requires maxChars >= 1 && |Heard(raw)| > MAX_CHUNKS * maxChars
    ensures |AllChunks(ToSpeak(CleanSpokenText(raw)), maxChars)| > MAX_CHUNKS
  {
    ReplyIsSpoken(raw, maxChars);
    ManyChunks(AllChunks(ToSpeak(CleanSpokenText(raw)), maxChars), maxChars);
  }

  lemma ManyChunks(chunks: seq<string>, maxChars: nat)
    requires (forall c :: c in chunks ==> |c| <= maxChars) && |SpokenAll(chunks)| > MAX_CHUNKS * maxChars
    ensures |chunks| > MAX_CHUNKS
  {
    SpokenAllFits(chunks, maxChars);
    if |chunks| <= MAX_CHUNKS {
      TimesMonotone(|chunks|, MAX_CHUNKS, maxChars);
    }
  }

  lemma {:induction false} LettersAreHeard(s: string)
    requires forall c :: c in s ==> !Visual(c) && !IsSpace(c)
    ensures Heard(s) == s
  {
    if s != "" {
      LettersAreHeard(s[1..]);
      assert s[0] in s;
      assert s == [s[0]] + s[1..];
    }
  }

  // For instance one long word.
  lemma LongWordIsNotWhole(n: nat, c: char, maxChars: nat)
    requires maxChars >= 1 && n > 8 * maxChars && !Visual(c) && !IsSpace(c)
    ensures
      var text := CleanSpokenText(seq(n, _ => c));
      WordsAll(SpokenChunks(text, maxChars)) != AllPieces(Words(text), maxChars)
  {
    var word := seq(n, _ => c);
    LettersAreHeard(word);
    LongReplyIsNotWhole(word, maxChars);
  }

  lemma WordsOfOne(c: string)
    ensures WordsAll([c]) == Words(c)
  {
    assert WordsAll([c][1..]) == [];
  }

  // What is kept of a cleaned reply has no more words than the reply, and each kept chunk has some.
  lemma SpokenWordsFit(raw: string, maxChars: nat)
    requires maxChars >= 1
    ensures
      var text := CleanSpokenText(raw);
      && |WordsAll(SpokenChunks(text, maxChars))| <= |AllPieces(Words(text), maxChars)|
      && forall c :: c in SpokenChunks(text, maxChars) ==> Words(c) != []
  {
    var text := CleanSpokenText(raw);
    var all := AllChunks(ToSpeak(text), maxChars);
    ReplyIsSpoken(raw, maxChars);
    forall c | c in all
      ensures Words(c) != []
    {
      ReplyChunksHaveWords(raw, maxChars, c);
    }
    if |all| > MAX_CHUNKS {
      assert all == all[..MAX_CHUNKS] + all[MAX_CHUNKS..];
      WordsAllJoin(all[..MAX_CHUNKS], all[MAX_CHUNKS..]);
    }
  }
}
