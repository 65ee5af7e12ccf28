/** Text preparation for the word tokenizer (crates/search/src/segment.rs): every Han character becomes a
    token of its own, on the index side and in queries alike. */
module Segment {
  import opened Chars
  import opened Wrappers

  /** The ideograph ranges that are split. */
  predicate Han(c: char) {
    var n := c as int;
    0x4E00 <= n <= 0x9FFF || 0x3400 <= n <= 0x4DBF || 0xF900 <= n <= 0xFAFF || 0x20000 <= n <= 0x2FA1F
  }

  /** Two neighbours that must not touch. */
  predicate Gap(a: char, b: char) {
    !White(a) && !White(b) && (Han(a) || Han(b))
  }

  function Spacer(a: char, b: char): string {
    if Gap(a, b) then [' '] else []
  }

  /** The text with a space between any two neighbours that must not touch. */
  function IndexText(text: string): (out: string)
    ensures |text| <= |out| && (text == [] ==> out == [])
    ensures text != [] ==> out != [] && out[0] == text[0] && out[|out| - 1] == text[|text| - 1]
  {
    if |text| <= 1 then text
    else
      var n := |text| - 1;
      IndexText(text[..n]) + Spacer(text[n - 1], text[n]) + [text[n]]
  }

  lemma IndexSnoc(text: string, c: char)
    requires text != []
    ensures IndexText(text + [c]) == IndexText(text) + Spacer(text[|text| - 1], c) + [c]
  {
    hide Spacer;
    var whole := text + [c];
    assert whole[..|whole| - 1] == text;
    assert whole[|whole| - 2] == text[|text| - 1];
  }

  lemma IndexOne(c: char)
    ensures IndexText([c]) == [c]
  {
  }

  /** The two ways the pass asks for a space are the one rule about neighbours. */
  lemma NeedsGap(prev: char, c: char)
    ensures Gap(prev, c) <==> (Han(c) && !White(prev)) || (!Han(c) && Han(prev) && !White(c))
  {
    hide White, Han;
    HanIsNotWhite(c);
    HanIsNotWhite(prev);
  }

  /** One pass; the last character written is always the last one read. */
  method SegmentText(text: string) returns (out: string)
    ensures out == IndexText(text)
  {
    hide White, Han, Gap, IndexText;
    out := [];
    var prevHan := false;
    for i := 0 to |text|
      invariant out == IndexText(text[..i])
      invariant prevHan == (i > 0 && Han(text[i - 1]))
    {
      var c := text[i];
      assert text[..i + 1] == text[..i] + [c];
      var needsGap := (Han(c) && out != [] && !White(out[|out| - 1])) || (!Han(c) && prevHan && !White(c));
      if i > 0 {
        NeedsGap(text[i - 1], c);
        IndexSnoc(text[..i], c);
        assert out + [] == out;
      } else {
        assert text[..1] == [c] == out + [c];
        IndexOne(c);
      }
      if needsGap {
        out := out + [' '];
      }
      out := out + [c];
      prevHan := Han(c);
    }
    assert text[..|text|] == text;
  }

  lemma HanIsNotWhite(c: char)
    ensures Han(c) ==> !White(c)
  {
  }

  lemma SpaceIsWhite()
    ensures White(' ') && !Han(' ')
  {
  }

  // ----- appending -----

  function Joint(a: string, b: string): string {
    if a == [] || b == [] then [] else Spacer(a[|a| - 1], b[0])
  }

  lemma Associate(x: string, y: string, z: string)
    ensures (x + y) + z == x + (y + z)
  {
  }

  /** The two halves of a text are segmented separately, up to the space where they meet. */
  lemma {:induction false} IndexAppend(a: string, b: string)
    ensures IndexText(a + b) == IndexText(a) + Joint(a, b) + IndexText(b)
  {
    if b == [] {
      assert a + b == a;
    } else if a == [] {
      assert a + b == b;
    } else {
      hide IndexText, Spacer;
      var (front, c) := (b[..|b| - 1], b[|b| - 1]);
      assert b == front + [c];
      if front == [] {
        assert b == [c];
        IndexOne(c);
        IndexSnoc(a, c);
      } else {
        IndexAppend(a, front);
        AppendStep(a, front, c);
      }
    }
  }

  lemma AppendStep(a: string, front: string, c: char)
    requires a != [] && front != []
    requires IndexText(a + front) == IndexText(a) + Joint(a, front) + IndexText(front)
    ensures IndexText(a + (front + [c])) == IndexText(a) + Joint(a, front + [c]) + IndexText(front + [c])
  {
    hide *;
    Associate(a, front, [c]);
    LastOfSum(a, front);
    IndexSnoc(a + front, c);
    IndexSnoc(front, c);
    JointFirst(a, front, c);
    Associate(IndexText(a) + Joint(a, front), IndexText(front), Spacer(front[|front| - 1], c));
    Associate(IndexText(a) + Joint(a, front), IndexText(front) + Spacer(front[|front| - 1], c), [c]);
  }

  lemma JointFirst(a: string, front: string, c: char)
    requires a != [] && front != []
    ensures Joint(a, front + [c]) == Joint(a, front)
  {
  }

  lemma LastOfSum(a: string, b: string)
    requires b != []
    ensures (a + b)[|a + b| - 1] == b[|b| - 1]
  {
  }

  // ----- every Han character stands alone -----

  predicate Separated(text: string) {
    forall i :: 0 < i < |text| ==> !Gap(text[i - 1], text[i])
  }

  lemma {:induction false} IndexSeparates(text: string)
    ensures Separated(IndexText(text))
  {
    hide White, Han;
    SpaceIsWhite();
    if |text| > 1 {
      IndexSeparates(text[..|text| - 1]);
    }
  }

  /** Segmenting leaves exactly the separated texts alone; so segmenting twice changes nothing more. */
  lemma {:induction false} SeparatedIsFixed(text: string)
    ensures IndexText(text) == text <==> Separated(text)
  {
    hide Gap;
    if Separated(text) {
      if |text| > 1 {
        SeparatedIsFixed(text[..|text| - 1]);
      }
    } else {
      IndexSeparates(text);
    }
  }

  /** Text without ideographs is indexed as it stands. */
  lemma PlainUnchanged(text: string)
    requires forall i :: 0 <= i < |text| ==> !Han(text[i])
    ensures IndexText(text) == text
  {
    hide White, Han, IndexText;
    SeparatedIsFixed(text);
  }

  lemma IndexTwice(text: string)
    ensures IndexText(IndexText(text)) == IndexText(text)
  {
    IndexSeparates(text);
    SeparatedIsFixed(IndexText(text));
  }

  /** In the segmented text every Han character has white space or an end on both sides. */
  lemma {:induction false} HanStandsAlone(text: string, i: nat)
    requires i < |IndexText(text)| && Han(IndexText(text)[i])
    ensures i == 0 || White(IndexText(text)[i - 1])
    ensures i == |IndexText(text)| - 1 || White(IndexText(text)[i + 1])
  {
    hide White, Han, IndexText;
    var out := IndexText(text);
    IndexSeparates(text);
    HanIsNotWhite(out[i]);
    assert i > 0 ==> !Gap(out[i - 1], out[i]);
    assert i + 1 < |out| ==> !Gap(out[i + 1 - 1], out[i + 1]);
  }

  // ----- nothing but white space is added -----

  function Strip(text: string): string {
    if text == [] then []
    else Strip(text[..|text| - 1]) + if White(text[|text| - 1]) then [] else [text[|text| - 1]]
  }

  lemma {:induction false} StripAppend(a: string, b: string)
    ensures Strip(a + b) == Strip(a) + Strip(b)
  {
    hide White;
    if b == [] {
      assert a + b == a;
    } else {
      assert (a + b)[..|a + b| - 1] == a + b[..|b| - 1];
      StripAppend(a, b[..|b| - 1]);
    }
  }

  lemma JointStrips(a: string, b: string)
    ensures Strip(Joint(a, b)) == []
  {
    SpaceIsWhite();
    StripOne(' ');
  }

  lemma {:induction false} IndexKeepsText(text: string)
    ensures Strip(IndexText(text)) == Strip(text)
  {
    hide White, Han, Joint, Strip;
    if |text| > 1 {
      var n := |text| - 1;
      var (a, b) := (text[..n], text[n..]);
      assert text == a + b;
      IndexKeepsText(a);
      IndexAppend(a, b);
      JointStrips(a, b);
      StripAppend(a, b);
      StripAppend(IndexText(a) + Joint(a, b), IndexText(b));
      StripAppend(IndexText(a), Joint(a, b));
    }
  }

  lemma StripOne(c: char)
    ensures Strip([c]) == if White(c) then [] else [c]
  {
    assert [c][..0] == [];
  }

  // ----- tokens -----

  /** The words of a text, as a tokenizer that splits at white space sees them. */
  function Tokens(text: string): seq<string> {
    if text == [] then []
    else
      var n := |text| - 1;
      Push(Tokens(text[..n]), text[n], n > 0 && !White(text[n - 1]))
  }

  /** One more character: it ends a word, starts one, or joins the last. */
  function Push(words: seq<string>, c: char, joins: bool): seq<string> {
    if White(c) then words
    else if !joins || words == [] then words + [[c]]
    else words[..|words| - 1] + [words[|words| - 1] + [c]]
  }

  function Concat(words: seq<string>): string {
    if words == [] then [] else Concat(words[..|words| - 1]) + words[|words| - 1]
  }

  lemma {:induction false} ConcatAppend(a: seq<string>, b: seq<string>)
    ensures Concat(a + b) == Concat(a) + Concat(b)
  {
    if b == [] {
      assert a + b == a;
    } else {
      assert (a + b)[..|a + b| - 1] == a + b[..|b| - 1];
      ConcatAppend(a, b[..|b| - 1]);
    }
  }

  lemma ConcatOne(word: string)
    ensures Concat([word]) == word
  {
    assert [word][..0] == [];
  }

  lemma ConcatOfPush(words: seq<string>, c: char, joins: bool)
    ensures Concat(Push(words, c, joins)) == Concat(words) + if White(c) then [] else [c]
  {
    hide White;
    if !White(c) {
      if !joins || words == [] {
        ConcatAppend(words, [[c]]);
        ConcatOne([c]);
      } else {
        var (front, last) := (words[..|words| - 1], words[|words| - 1]);
        assert words == front + [last];
        ConcatAppend(front, [last]);
        ConcatOne(last);
        ConcatAppend(front, [last + [c]]);
        ConcatOne(last + [c]);
      }
    }
  }

  lemma {:induction false} ConcatOfTokens(text: string)
    ensures Concat(Tokens(text)) == Strip(text)
  {
    hide White, Push;
    if text != [] {
      var n := |text| - 1;
      ConcatOfTokens(text[..n]);
      ConcatOfPush(Tokens(text[..n]), text[n], n > 0 && !White(text[n - 1]));
    }
  }

  /** No word runs across the place where two texts meet. */
  predicate Boundary(a: string, b: string) {
    a == [] || b == [] || White(a[|a| - 1]) || White(b[0])
  }

  lemma PushAppend(s: seq<string>, t: seq<string>, c: char, joins: bool)
    requires joins ==> t != []
    ensures Push(s + t, c, joins) == s + Push(t, c, joins)
  {
    hide White;
    if joins {
      assert (s + t)[..|s + t| - 1] == s + t[..|t| - 1];
    }
  }

  lemma {:induction false} TokensAppend(a: string, b: string)
    requires Boundary(a, b)
    ensures Tokens(a + b) == Tokens(a) + Tokens(b)
  {
    hide White, Push;
    if b == [] {
      assert a + b == a;
    } else {
      var n := |b| - 1;
      var whole := a + b;
      assert whole[..|whole| - 1] == a + b[..n];
      if n > 0 {
        assert b[..n][0] == b[0] && whole[|whole| - 2] == b[n - 1];
        TokensAppend(a, b[..n]);
        NonEmptyTokens(b[..n]);
        PushAppend(Tokens(a), Tokens(b[..n]), b[n], !White(b[n - 1]));
      } else {
        assert a + b[..n] == a;
        FirstToken(a, b[0]);
        assert b == [b[0]];
      }
    }
  }

  lemma FirstToken(a: string, c: char)
    requires Boundary(a, [c])
    ensures Tokens(a + [c]) == Tokens(a) + Tokens([c])
  {
    hide White;
    var whole := a + [c];
    assert whole[..|a|] == a && [c][..0] == [];
    assert a != [] ==> whole[|whole| - 2] == a[|a| - 1];
  }

  lemma NonEmptyTokens(text: string)
    ensures text != [] && !White(text[|text| - 1]) ==> Tokens(text) != []
  {
  }

  function Singles(text: string): seq<string> {
    seq(|text|, i requires 0 <= i < |text| => [text[i]])
  }

  /** Only Han characters and white space. */
  predicate HanOrWhite(text: string) {
    forall i :: 0 <= i < |text| ==> Han(text[i]) || White(text[i])
  }

  predicate AllHan(text: string) {
    forall i :: 0 <= i < |text| ==> Han(text[i])
  }

  lemma TokenOne(c: char)
    ensures Tokens([c]) == if White(c) then [] else [[c]]
    ensures Tokens([]) == []
  {
    assert [c][..0] == [];
  }

  lemma JointIsBlank(a: string, b: string)
    ensures Joint(a, b) == [] || Joint(a, b) == [' ']
    ensures Tokens(Joint(a, b)) == []
  {
    hide White, Han;
    SpaceIsWhite();
    TokenOne(' ');
  }

  lemma Ends(s: string, j: string, t: string)
    requires s != [] && t != []
    requires j == [' '] || (j == [] && (White(s[|s| - 1]) || White(t[0])))
    ensures Boundary(s, j) && Boundary(s + j, t)
  {
    SpaceIsWhite();
    hide White;
    assert j == [] ==> s + j == s;
    assert j == [' '] ==> (s + j)[|s + j| - 1] == ' ';
  }

  lemma Touching(x: char, y: char)
    requires Han(x) || White(x) || Han(y) || White(y)
    ensures Gap(x, y) || White(x) || White(y)
  {
  }

  lemma JointBoundary(a: string, b: string)
    requires a == [] || b == [] || Han(a[|a| - 1]) || White(a[|a| - 1]) || Han(b[0]) || White(b[0])
    ensures Boundary(IndexText(a), Joint(a, b)) && Boundary(IndexText(a) + Joint(a, b), IndexText(b))
  {
    if a != [] && b != [] {
      hide White, Han, IndexText, Gap, Boundary;
      Touching(a[|a| - 1], b[0]);
      Ends(IndexText(a), Joint(a, b), IndexText(b));
    }
  }

  /** Where a Han character or white space is on either side of a joint, no word crosses it. */
  lemma JoinTokens(a: string, b: string)
    requires a == [] || b == [] || Han(a[|a| - 1]) || White(a[|a| - 1]) || Han(b[0]) || White(b[0])
    ensures Tokens(IndexText(a + b)) == Tokens(IndexText(a)) + Tokens(IndexText(b))
  {
    hide White, Han, IndexText, Tokens, Joint, Boundary;
    IndexAppend(a, b);
    JointIsBlank(a, b);
    JointBoundary(a, b);
    var (s, j, t) := (IndexText(a), Joint(a, b), IndexText(b));
    TokensAppend(s, j);
    TokensAppend(s + j, t);
    assert Tokens(s) + [] == Tokens(s);
  }

  lemma Nothing()
    ensures Tokens(IndexText([])) == [] && Singles(Strip([])) == []
  {
  }

  lemma SinglesSnoc(text: string, c: char)
    ensures Singles(text + [c]) == Singles(text) + [[c]] && Singles(text + []) == Singles(text) + []
  {
    assert text + [] == text;
  }

  lemma {:induction false} HanTokens(text: string)
    requires HanOrWhite(text)
    ensures Tokens(IndexText(text)) == Singles(Strip(text))
  {
    hide White, Han, Tokens, IndexText, Strip, Singles;
    if text == [] {
      Nothing();
    } else {
      var n := |text| - 1;
      var c := text[n];
      assert text == text[..n] + [c];
      HanTokens(text[..n]);
      JoinTokens(text[..n], [c]);
      HanIsNotWhite(c);
      TokenOne(c);
      IndexOne(c);
      StripAppend(text[..n], [c]);
      StripOne(c);
      SinglesSnoc(Strip(text[..n]), c);
    }
  }

  /** A stretch of Han characters and white space keeps its tokens to itself, whatever surrounds it. */
  lemma StretchTokens(a: string, m: string, b: string)
    requires HanOrWhite(m) && m != []
    ensures Tokens(IndexText(a + m + b)) == Tokens(IndexText(a)) + Singles(Strip(m)) + Tokens(IndexText(b))
  {
    hide White, Han, IndexText, Tokens, Strip, Singles;
    HanTokens(m);
    JoinTokens(a + m, b);
    JoinTokens(a, m);
    assert (a + m)[|a + m| - 1] == m[|m| - 1];
  }

  // ----- phrase search -----

  /** The words occur next to each other, in order: what a phrase query asks of a column. */
  ghost predicate PhraseIn(words: seq<string>, column: seq<string>) {
    exists before, after :: column == before + words + after
  }

  lemma LastAgrees(p: string, c: char, x: string, y: string)
    requires p + [c] == x + y && y != []
    ensures y == y[..|y| - 1] + [c] && p == x + y[..|y| - 1]
  {
    var whole := p + [c];
    assert whole[|whole| - 1] == y[|y| - 1];
    assert p == whole[..|whole| - 1] == (x + y)[..|whole| - 1];
  }

  lemma {:induction false} StripSplits(text: string, x: string, y: string) returns (a: string, b: string)
    requires Strip(text) == x + y
    ensures text == a + b && Strip(a) == x && Strip(b) == y
  {
    hide White;
    if y == [] {
      a, b := text, [];
    } else {
      var n := |text| - 1;
      var c := text[n];
      var kept := y;
      if !White(c) {
        LastAgrees(Strip(text[..n]), c, x, y);
        kept := y[..|y| - 1];
      }
      var rest;
      a, rest := StripSplits(text[..n], x, kept);
      b := rest + [c];
      StripAppend(rest, [c]);
      StripOne(c);
    }
  }

  lemma {:induction false} StrippedHan(m: string)
    requires AllHan(Strip(m))
    ensures HanOrWhite(m)
  {
    hide White, Han;
    if m != [] {
      var n := |m| - 1;
      assert forall i :: 0 <= i < |Strip(m[..n])| ==> Strip(m)[i] == Strip(m[..n])[i];
      StrippedHan(m[..n]);
      if !White(m[n]) {
        assert Strip(m)[|Strip(m)| - 1] == m[n];
      }
    }
  }

  /** A Han query finds a segmented column exactly when the column's text holds the query, white space
      between its characters aside. */
  lemma HanPhraseFound(text: string, query: string)
    requires AllHan(query) && query != []
    ensures PhraseIn(Tokens(IndexText(query)), Tokens(IndexText(text)))
       <==> exists a, m, b :: text == a + m + b && Strip(m) == query
  {
    hide White, Han, IndexText, Tokens;
    StripHan(query);
    HanTokens(query);
    if PhraseIn(Tokens(IndexText(query)), Tokens(IndexText(text))) {
      var before, after :| Tokens(IndexText(text)) == before + Singles(query) + after;
      ConcatAppend(before + Singles(query), after);
      ConcatAppend(before, Singles(query));
      ConcatSingles(query);
      ConcatOfTokens(IndexText(text));
      IndexKeepsText(text);
      var front, b := StripSplits(text, Concat(before) + query, Concat(after));
      var a, m := StripSplits(front, Concat(before), query);
      assert text == a + m + b;
    }
    if a, m, b :| text == a + m + b && Strip(m) == query {
      StrippedHan(m);
      StretchTokens(a, m, b);
      assert Tokens(IndexText(text)) == Tokens(IndexText(a)) + Tokens(IndexText(query)) + Tokens(IndexText(b));
    }
  }

  lemma {:induction false} StripHan(text: string)
    requires AllHan(text)
    ensures Strip(text) == text
  {
    hide White, Han;
    if text != [] {
      StripHan(text[..|text| - 1]);
      HanIsNotWhite(text[|text| - 1]);
    }
  }

  lemma {:induction false} ConcatSingles(text: string)
    ensures Concat(Singles(text)) == text
  {
    if text != [] {
      var n := |text| - 1;
      ConcatSingles(text[..n]);
      assert Singles(text)[..n] == Singles(text[..n]);
    }
  }

  // ----- the query side -----

  function Doubled(text: string): string {
    if text == [] then [] else Double(text[0]) + Doubled(text[1..])
  }

  function QueryPhrase(term: string): string {
    ['"'] + Doubled(IndexText(term)) + ['"']
  }

  /** A quoted string of the query language after its opening quote: a doubled quote is a quote. */
  function ReadString(text: string): Option<(string, string)> {
    if text == [] then None
    else if text[0] != '"' then
      (match ReadString(text[1..]) case None => None case Some(r) => Some(([text[0]] + r.0, r.1)))
    else if |text| > 1 && text[1] == '"' then
      (match ReadString(text[2..]) case None => None case Some(r) => Some((['"'] + r.0, r.1)))
    else Some(([], text[1..]))
  }

  function Double(c: char): string {
    if c == '"' then ['"', '"'] else [c]
  }

  lemma DoubleReadsBack(c: char, tail: string)
    ensures ReadString(Double(c) + tail)
            == match ReadString(tail) case None => None case Some(r) => Some(([c] + r.0, r.1))
  {
    var text := Double(c) + tail;
    if c == '"' {
      assert text[2..] == tail;
    } else {
      assert text[1..] == tail;
    }
  }

  lemma {:induction false} DoubledReadsBack(text: string, rest: string)
    requires rest == [] || rest[0] != '"'
    ensures ReadString(Doubled(text) + (['"'] + rest)) == Some((text, rest))
  {
    if text == [] {
      assert Doubled(text) + (['"'] + rest) == ['"'] + rest;
      assert (['"'] + rest)[1..] == rest;
    } else {
      hide ReadString, Double;
      var (first, others, end) := (Double(text[0]), Doubled(text[1..]), ['"'] + rest);
      DoubledReadsBack(text[1..], rest);
      assert Doubled(text) == first + others;
      hide Doubled;
      Associate(first, others, end);
      DoubleReadsBack(text[0], others + end);
      assert [text[0]] + text[1..] == text;
    }
  }

  /** Whatever a term holds, operators and quotes included, the phrase reads as its segmented text and
      nothing more. */
  lemma QueryPhraseReadsBack(term: string, rest: string)
    requires rest == [] || rest[0] != '"'
    ensures var phrase := QueryPhrase(term) + rest;
            phrase[0] == '"' && ReadString(phrase[1..]) == Some((IndexText(term), rest))
  {
    hide IndexText, Doubled, ReadString;
    var phrase := QueryPhrase(term) + rest;
    assert phrase[1..] == Doubled(IndexText(term)) + (['"'] + rest);
    DoubledReadsBack(IndexText(term), rest);
  }
}
