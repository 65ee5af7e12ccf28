/** Compiling snippets into the espanso match file (crates/espanso-adapter/src/compile.rs), and reading that
    file back by the rules of YAML 1.2.2. */
module EspansoYaml {
  import opened Chars
  import opened Wrappers

  datatype Security = Normal | Sensitive

  datatype Content = Plaintext(body: string) | Ciphertext

  datatype TriggerMode = Immediate | Delimiter | WordBoundary | Regex

  datatype Snippet = Snippet(
    id: string,
    enabled: bool,
    security: Security,
    content: Content,
    trigger: Option<string>,
    mode: Option<TriggerMode>)

  datatype Trigger = Literal(text: string) | Pattern(text: string)

  datatype Match = Match(trigger: Trigger, word: bool, replace: string)

  datatype CompileError = EmptyTrigger(snippetId: string)

  datatype Compiled = Compiled(yaml: string, matchCount: nat)

  // ----- which snippets become matches -----

  predicate Blank(text: string) {
    forall i :: 0 <= i < |text| ==> White(text[i])
  }

  /** Enabled, normal security, a plaintext body and a trigger: everything else stays out. */
  predicate Eligible(s: Snippet) {
    s.enabled && s.security.Normal? && s.content.Plaintext? && s.trigger.Some? && s.mode.Some?
  }

  predicate BlankTrigger(s: Snippet) {
    s.trigger.Some? && Blank(s.trigger.value)
  }

  function MatchOf(s: Snippet): Match
    requires Eligible(s)
  {
    Match(if s.mode.value.Regex? then Pattern(s.trigger.value) else Literal(s.trigger.value),
          s.mode.value in {Delimiter, WordBoundary},
          s.content.body)
  }

  function EligibleMatch(s: Snippet): Result<Option<Match>, CompileError> {
    if !Eligible(s) then Ok(None)
    else if BlankTrigger(s) then Err(EmptyTrigger(s.id))
    else Ok(Some(MatchOf(s)))
  }

  /** The eligible snippets, in order. */
  function Chosen(snippets: seq<Snippet>): (chosen: seq<Snippet>)
    ensures forall s :: s in chosen <==> s in snippets && Eligible(s)
  {
    if snippets == [] then []
    else
      var last := snippets[|snippets| - 1];
      assert snippets == snippets[..|snippets| - 1] + [last];
      Chosen(snippets[..|snippets| - 1]) + if Eligible(last) then [last] else []
  }

  function Matches(chosen: seq<Snippet>): (matches: seq<Match>)
    requires forall s :: s in chosen ==> Eligible(s)
    ensures |matches| == |chosen|
  {
    seq(|chosen|, i requires 0 <= i < |chosen| => assert chosen[i] in chosen; MatchOf(chosen[i]))
  }

  // ----- the bytes -----

  /** The machine-managed notice; its text is one comment line. */
  const HEADER: string := "# Generated by Typvia. Do not edit \U{2014} this file is regenerated from your snippets.\n"

  function HexDigit(n: nat): char
    requires n < 16
  {
    if n < 10 then '0' + n as char else 'A' + (n - 10) as char
  }

  function Escape(c: char): string {
    if c == '\\' then ['\\', '\\']
    else if c == '"' then ['\\', '"']
    else if c == '\n' then ['\\', 'n']
    else if c == '\r' then ['\\', 'r']
    else if c == '\t' then ['\\', 't']
    else if c as int < 0x20 then ['\\', 'x', HexDigit(c as int / 16), HexDigit(c as int % 16)]
    else [c]
  }

  function Escapes(value: string): string {
    if value == [] then [] else Escape(value[0]) + Escapes(value[1..])
  }

  function Quoted(value: string): string {
    ['"'] + Escapes(value) + ['"']
  }

  lemma {:induction false} EscapesAppend(a: string, b: string)
    ensures Escapes(a + b) == Escapes(a) + Escapes(b)
  {
    if a == [] {
      assert a + b == b;
    } else {
      assert (a + b)[1..] == a[1..] + b;
      EscapesAppend(a[1..], b);
    }
  }

  method QuoteScalar(value: string) returns (out: string)
    ensures out == Quoted(value)
  {
    out := ['"'];
    for i := 0 to |value|
      invariant out == ['"'] + Escapes(value[..i])
    {
      hide Escape;
      assert value[..i + 1] == value[..i] + [value[i]];
      EscapesAppend(value[..i], [value[i]]);
      assert [value[i]][1..] == [];
      out := out + Escape(value[i]);
    }
    assert value[..|value|] == value;
    out := out + ['"'];
  }

  // ----- section 5.7 and section 7.3.1 of YAML 1.2.2 -----

  function HexValue(c: char): Option<nat> {
    if '0' <= c <= '9' then Some(c as int - '0' as int)
    else if 'A' <= c <= 'F' then Some(c as int - 'A' as int + 10)
    else if 'a' <= c <= 'f' then Some(c as int - 'a' as int + 10)
    else None
  }

  function ReadHex(text: string, digits: nat, so: nat): Option<(nat, string)> {
    if digits == 0 then Some((so, text))
    else if text == [] || HexValue(text[0]).None? then None
    else ReadHex(text[1..], digits - 1, so * 16 + HexValue(text[0]).value)
  }

  predicate Scalar(n: nat) {
    n < 0xD800 || 0xE000 <= n < 0x110000
  }

  function CharOfHex(read: Option<(nat, string)>): Option<(char, string)> {
    if read.Some? && Scalar(read.value.0) then Some((read.value.0 as char, read.value.1)) else None
  }

  /** The escapes that stand for one character by name. */
  function NamedEscape(c: char): Option<char> {
    match c
    case '0' => Some(0 as char)
    case 'a' => Some(7 as char)
    case 'b' => Some(8 as char)
    case 't' => Some('\t')
    case 'n' => Some('\n')
    case 'v' => Some(11 as char)
    case 'f' => Some(12 as char)
    case 'r' => Some('\r')
    case 'e' => Some(27 as char)
    case ' ' => Some(' ')
    case '"' => Some('"')
    case '/' => Some('/')
    case '\\' => Some('\\')
    case 'N' => Some(0x85 as char)
    case '_' => Some(0xA0 as char)
    case 'L' => Some(0x2028 as char)
    case 'P' => Some(0x2029 as char)
    case _ => None
  }

  /** What follows a backslash. */
  function ReadEscape(text: string): Option<(char, string)> {
    if text == [] then None
    else if NamedEscape(text[0]).Some? then Some((NamedEscape(text[0]).value, text[1..]))
    else
      match text[0]
      case 'x' => CharOfHex(ReadHex(text[1..], 2, 0))
      case 'u' => CharOfHex(ReadHex(text[1..], 4, 0))
      case 'U' => CharOfHex(ReadHex(text[1..], 8, 0))
      case _ => None
  }

  lemma {:induction false} HexShortens(text: string, digits: nat, so: nat)
    ensures ReadHex(text, digits, so).Some? ==> |ReadHex(text, digits, so).value.1| == |text| - digits
  {
    if digits > 0 && text != [] && HexValue(text[0]).Some? {
      HexShortens(text[1..], digits - 1, so * 16 + HexValue(text[0]).value);
    }
  }

  lemma EscapeShortens(text: string)
    ensures ReadEscape(text).Some? ==> |ReadEscape(text).value.1| < |text|
  {
    if text != [] {
      HexShortens(text[1..], 2, 0);
      HexShortens(text[1..], 4, 0);
      HexShortens(text[1..], 8, 0);
    }
  }

  /** A one-line double-quoted scalar after its opening quote: its value and what follows. Raw control
      characters, line breaks among them, are outside its grammar; a tab is not. */
  function ReadQuoted(text: string): Option<(string, string)>
    decreases |text|
  {
    if text == [] then None
    else if text[0] == '"' then Some(([], text[1..]))
    else if text[0] == '\\' then
      EscapeShortens(text[1..]);
      match ReadEscape(text[1..])
      case None => None
      case Some(e) => Prepend(e.0, ReadQuoted(e.1))
    else if text[0] as int < 0x20 && text[0] != '\t' then None
    else Prepend(text[0], ReadQuoted(text[1..]))
  }

  function Prepend(c: char, read: Option<(string, string)>): Option<(string, string)> {
    if read.None? then None else Some(([c] + read.value.0, read.value.1))
  }

  lemma EscapedByte(n: nat, rest: string)
    requires n < 0x20
    ensures ReadHex([HexDigit(n / 16), HexDigit(n % 16)] + rest, 2, 0) == Some((n, rest))
  {
    var text := [HexDigit(n / 16), HexDigit(n % 16)] + rest;
    assert HexValue(HexDigit(n / 16)) == Some(n / 16) && HexValue(HexDigit(n % 16)) == Some(n % 16);
    assert text[1..] == [HexDigit(n % 16)] + rest;
    assert text[1..][1..] == rest;
    assert ReadHex(text[1..], 1, n / 16) == ReadHex(rest, 0, n / 16 * 16 + n % 16);
  }

  lemma EscapeReadsBack(c: char, rest: string)
    requires Escape(c)[0] == '\\'
    ensures ReadEscape(Escape(c)[1..] + rest) == Some((c, rest))
  {
    var text := Escape(c)[1..] + rest;
    if |Escape(c)| == 2 {
      assert text[1..] == rest;
    } else {
      var n := c as int;
      EscapedByte(n, rest);
      assert text[1..] == [HexDigit(n / 16), HexDigit(n % 16)] + rest;
    }
  }

  lemma EscapeShape(c: char)
    ensures |Escape(c)| > 0
    ensures Escape(c)[0] != '\\' ==> Escape(c) == [c] && c != '"' && c as int >= 0x20
  {
  }

  /** Reading one escaped character gives the character. */
  lemma CharReadsBack(c: char, rest: string)
    ensures ReadQuoted(Escape(c) + rest) == Prepend(c, ReadQuoted(rest))
  {
    hide Prepend, Escape, ReadEscape;
    EscapeShape(c);
    var text := Escape(c) + rest;
    assert text[0] == Escape(c)[0];
    if text[0] == '\\' {
      assert text[1..] == Escape(c)[1..] + rest;
      EscapeReadsBack(c, rest);
    } else {
      assert text[1..] == rest;
    }
  }

  /** Every string reads back from its quoted form, wherever it stands. */
  lemma {:induction false} QuotedReadsBack(value: string, rest: string)
    ensures ReadQuoted(Escapes(value) + (['"'] + rest)) == Some((value, rest))
  {
    if value == [] {
      assert Escapes(value) + (['"'] + rest) == ['"'] + rest;
      assert (['"'] + rest)[1..] == rest;
    } else {
      hide Escape;
      var tail := Escapes(value[1..]) + (['"'] + rest);
      assert Escapes(value) + (['"'] + rest) == Escape(value[0]) + tail;
      CharReadsBack(value[0], tail);
      QuotedReadsBack(value[1..], rest);
      assert [value[0]] + value[1..] == value;
    }
  }

  // ----- the file -----

  function KindKey(trigger: Trigger): string {
    match trigger
    case Literal(_) => "  - trigger: "
    case Pattern(_) => "  - regex: "
  }

  const REPLACE_KEY: string := "    replace: "
  const WORD_LINE: string := "    word: true\n"
  const NO_MATCHES: string := "matches: []\n"
  const MATCHES: string := "matches:\n"

  function Item(m: Match): string {
    KindKey(m.trigger) + (Quoted(m.trigger.text) + (['\n'] + (REPLACE_KEY + (Quoted(m.replace) + (['\n']
      + (if m.word then WORD_LINE else []))))))
  }

  function Items(matches: seq<Match>): string {
    if matches == [] then [] else Item(matches[0]) + Items(matches[1..])
  }

  function Document(matches: seq<Match>): string {
    HEADER + if matches == [] then NO_MATCHES else MATCHES + Items(matches)
  }

  lemma {:induction false} ItemsAppend(a: seq<Match>, m: Match)
    ensures Items(a + [m]) == Items(a) + Item(m)
  {
    hide Item;
    if a == [] {
      assert (a + [m])[1..] == [];
      assert Items([m]) == Item(m) + Items([]);
    } else {
      assert (a + [m])[1..] == a[1..] + [m];
      ItemsAppend(a[1..], m);
    }
  }

  method EmitYaml(matches: seq<Match>) returns (out: string)
    ensures out == Document(matches)
  {
    hide Item, Quoted, KindKey;
    if matches == [] {
      return HEADER + NO_MATCHES;
    }
    out := HEADER + MATCHES;
    for i := 0 to |matches|
      invariant out == HEADER + MATCHES + Items(matches[..i])
    {
      assert matches[..i + 1] == matches[..i] + [matches[i]];
      ItemsAppend(matches[..i], matches[i]);
      var item := EmitItem(matches[i]);
      out := out + item;
    }
    assert matches[..|matches|] == matches;
  }

  method EmitItem(m: Match) returns (out: string)
    ensures out == Item(m)
  {
    hide Quoted, KindKey;
    out := KindKey(m.trigger);
    var trigger := QuoteScalar(m.trigger.text);
    out := out + trigger;
    out := out + ['\n'];
    out := out + REPLACE_KEY;
    var replace := QuoteScalar(m.replace);
    out := out + replace;
    out := out + ['\n'];
    if m.word {
      out := out + WORD_LINE;
    }
    Flatten(KindKey(m.trigger), Quoted(m.trigger.text), ['\n'], REPLACE_KEY, Quoted(m.replace), ['\n'],
            if m.word then WORD_LINE else []);
  }

  lemma Flatten(a: string, b: string, c: string, d: string, e: string, f: string, g: string)
    ensures a + b + c + d + e + f + g == a + (b + (c + (d + (e + (f + g)))))
  {
  }

  // ----- reading the file -----

  /** The rest of a text after a prefix. */
  function After(text: string, prefix: string): (rest: Option<string>)
    ensures rest.Some? ==> text == prefix + rest.value
  {
    if |prefix| <= |text| && text[..|prefix|] == prefix then Some(text[|prefix|..]) else None
  }

  lemma AfterPrefix(prefix: string, rest: string)
    ensures After(prefix + rest, prefix) == Some(rest)
  {
    assert (prefix + rest)[..|prefix|] == prefix && (prefix + rest)[|prefix|..] == rest;
  }

  lemma NotAfter(text: string, prefix: string, i: nat)
    requires i < |prefix| && (i >= |text| || text[i] != prefix[i])
    ensures After(text, prefix) == None
  {
    if |prefix| <= |text| {
      assert text[..|prefix|][i] == text[i];
    }
  }

  /** A quoted scalar that ends its line. */
  function ReadLine(text: string): (r: Option<(string, string)>) {
    if text == [] || text[0] != '"' then None
    else
      match ReadQuoted(text[1..])
      case None => None
      case Some(read) =>
        match After(read.1, ['\n'])
        case None => None
        case Some(rest) => Some((read.0, rest))
  }

  lemma LineReadsBack(value: string, rest: string)
    ensures ReadLine(Quoted(value) + (['\n'] + rest)) == Some((value, rest))
  {
    hide Escapes, ReadQuoted;
    var text := Quoted(value) + (['\n'] + rest);
    assert text[1..] == Escapes(value) + (['"'] + (['\n'] + rest));
    QuotedReadsBack(value, ['\n'] + rest);
    AfterPrefix(['\n'], rest);
  }

  /** One block mapping of the sequence. */
  function ReadItem(text: string): Option<(Match, string)> {
    var literal := After(text, "  - trigger: ");
    var pattern := After(text, "  - regex: ");
    var line :=
      if literal.Some? then ReadLine(literal.value)
      else if pattern.Some? then ReadLine(pattern.value)
      else None;
    match line
    case None => None
    case Some(trigger) =>
      match After(trigger.1, "    replace: ")
      case None => None
      case Some(value) =>
        match ReadLine(value)
        case None => None
        case Some(replace) =>
          var kind := if literal.Some? then Literal(trigger.0) else Pattern(trigger.0);
          match After(replace.1, "    word: true\n")
          case Some(rest) => Some((Match(kind, true, replace.0), rest))
          case None => Some((Match(kind, false, replace.0), replace.1))
  }

  function ReadItems(text: string, fuel: nat): Option<seq<Match>>
    decreases fuel
  {
    if text == [] then Some([])
    else if fuel == 0 then None
    else
      match ReadItem(text)
      case None => None
      case Some(item) =>
        match ReadItems(item.1, fuel - 1)
        case None => None
        case Some(rest) => Some([item.0] + rest)
  }

  /** The match list of a file; one item takes at least one character. */
  function ReadDocument(text: string): Option<seq<Match>> {
    match After(text, HEADER)
    case None => None
    case Some(body) =>
      if body == "matches: []\n" then Some([])
      else
        match After(body, "matches:\n")
        case None => None
        case Some(items) => ReadItems(items, |items|)
  }

  lemma KeysDiffer(t: Trigger, rest: string)
    ensures match t
            case Literal(_) => After(KindKey(t) + rest, "  - trigger: ") == Some(rest)
            case Pattern(_) => After(KindKey(t) + rest, "  - trigger: ") == None
                               && After(KindKey(t) + rest, "  - regex: ") == Some(rest)
  {
    AfterPrefix(KindKey(t), rest);
    if t.Pattern? {
      assert (KindKey(t) + rest)[4] == 'r' && "  - trigger: "[4] == 't';
      NotAfter(KindKey(t) + rest, "  - trigger: ", 4);
    }
  }

  /** What follows an item is the end or another item, never a word line of its own. */
  predicate ItemStart(text: string) {
    text == [] || (|text| > 2 && text[2] == '-')
  }

  lemma NoWordLine(text: string)
    requires ItemStart(text)
    ensures After(text, WORD_LINE) == None
  {
    assert |WORD_LINE| > 2 && WORD_LINE[2] == ' ';
    NotAfter(text, WORD_LINE, 2);
  }

  lemma ItemReadsBack(m: Match, rest: string)
    requires ItemStart(rest)
    ensures ReadItem(Item(m) + rest) == Some((m, rest))
  {
    hide Quoted, KindKey, ReadLine, After, ItemStart;
    var word := if m.word then WORD_LINE else [];
    var line2 := Quoted(m.replace) + (['\n'] + (word + rest));
    var line1 := Quoted(m.trigger.text) + (['\n'] + (REPLACE_KEY + line2));
    Unfold(KindKey(m.trigger), Quoted(m.trigger.text), ['\n'], REPLACE_KEY, Quoted(m.replace), word, rest);
    assert Item(m) + rest == KindKey(m.trigger) + line1;
    KeysDiffer(m.trigger, line1);
    LineReadsBack(m.trigger.text, REPLACE_KEY + line2);
    AfterPrefix(REPLACE_KEY, line2);
    LineReadsBack(m.replace, word + rest);
    if m.word {
      AfterPrefix(WORD_LINE, rest);
    } else {
      assert word + rest == rest;
      NoWordLine(rest);
    }
  }

  lemma Unfold(a: string, b: string, c: string, d: string, e: string, g: string, rest: string)
    ensures (a + (b + (c + (d + (e + (c + g)))))) + rest == a + (b + (c + (d + (e + (c + (g + rest))))))
  {
  }

  lemma ItemsStart(matches: seq<Match>)
    ensures ItemStart(Items(matches)) && |matches| <= |Items(matches)|
  {
    if matches != [] {
      ItemsStart(matches[1..]);
      hide Quoted;
      var m := matches[0];
      assert KindKey(m.trigger)[2] == '-';
      assert Item(m)[2] == KindKey(m.trigger)[2];
      assert Items(matches)[2] == Item(m)[2];
    }
  }

  lemma {:induction false} ItemsReadBack(matches: seq<Match>, fuel: nat)
    requires |matches| <= fuel
    ensures ReadItems(Items(matches), fuel) == Some(matches)
  {
    hide Item, ReadItem, ItemStart;
    if matches != [] {
      ItemsStart(matches);
      ItemsStart(matches[1..]);
      ItemReadsBack(matches[0], Items(matches[1..]));
      ItemsReadBack(matches[1..], fuel - 1);
      assert [matches[0]] + matches[1..] == matches;
    }
  }

  /** The file reads back as exactly the matches it was written from, in order. */
  lemma DocumentReadsBack(matches: seq<Match>)
    ensures ReadDocument(Document(matches)) == Some(matches)
  {
    hide Items, ReadItems, After;
    AfterHeader(if matches == [] then NO_MATCHES else MATCHES + Items(matches));
    if matches != [] {
      var body := MATCHES + Items(matches);
      BodiesDiffer(Items(matches));
      AfterPrefix(MATCHES, Items(matches));
      ItemsStart(matches);
      ItemsReadBack(matches, |Items(matches)|);
    }
  }

  lemma AfterHeader(body: string)
    ensures After(HEADER + body, HEADER) == Some(body)
  {
    AfterPrefix(HEADER, body);
  }

  lemma BodiesDiffer(items: string)
    ensures MATCHES + items != NO_MATCHES
  {
    assert (MATCHES + items)[8] == '\n' && NO_MATCHES[8] == ' ';
  }

  // ----- compiling -----

  /** The error names the first eligible snippet with a blank trigger; otherwise the file holds the
      eligible snippets' matches and nothing else. */
  method CompileSnippets(snippets: seq<Snippet>) returns (r: Result<Compiled, CompileError>)
    ensures r.Ok? <==> forall s :: s in Chosen(snippets) ==> !BlankTrigger(s)
    ensures r.Ok? ==> r.value == Compiled(Document(Matches(Chosen(snippets))), |Chosen(snippets)|)
    ensures r.Err? ==> exists i :: 0 <= i < |Chosen(snippets)| && BlankTrigger(Chosen(snippets)[i])
                                   && r.error == EmptyTrigger(Chosen(snippets)[i].id)
                                   && forall j :: 0 <= j < i ==> !BlankTrigger(Chosen(snippets)[j])
  {
    hide Blank, Document, BlankTrigger, MatchOf, Eligible;
    var matches: seq<Match> := [];
    for i := 0 to |snippets|
      invariant forall s :: s in Chosen(snippets[..i]) ==> !BlankTrigger(s)
      invariant matches == Matches(Chosen(snippets[..i]))
    {
      assert snippets[..i + 1][..i] == snippets[..i];
      var found := EligibleMatch(snippets[i]);
      if found.Err? {
        FirstBlank(snippets, i);
        return Err(found.error);
      }
      if found.value.Some? {
        matches := matches + [found.value.value];
      }
    }
    assert snippets[..|snippets|] == snippets;
    var yaml := EmitYaml(matches);
    r := Ok(Compiled(yaml, |matches|));
  }

  lemma FirstBlank(snippets: seq<Snippet>, i: nat)
    requires i < |snippets| && Eligible(snippets[i])
    ensures var n := |Chosen(snippets[..i])|;
            n < |Chosen(snippets)| && Chosen(snippets)[n] == snippets[i]
              && Chosen(snippets)[..n] == Chosen(snippets[..i])
  {
    hide Eligible;
    assert snippets[..i + 1][..i] == snippets[..i];
    ChosenPrefix(snippets, i + 1);
  }

  lemma {:induction false} ChosenPrefix(snippets: seq<Snippet>, i: nat)
    requires i <= |snippets|
    ensures Chosen(snippets[..i]) <= Chosen(snippets)
  {
    if i < |snippets| {
      ChosenPrefix(snippets[..|snippets| - 1], i);
      assert snippets[..|snippets| - 1][..i] == snippets[..i];
    } else {
      assert snippets[..i] == snippets;
    }
  }

  lemma {:induction false} ChosenAppend(a: seq<Snippet>, b: seq<Snippet>)
    ensures Chosen(a + b) == Chosen(a) + Chosen(b)
  {
    hide Eligible;
    if b == [] {
      assert a + b == a;
    } else {
      assert (a + b)[..|a + b| - 1] == a + b[..|b| - 1];
      ChosenAppend(a, b[..|b| - 1]);
    }
  }

  /** An ineligible snippet can be put anywhere, removed, or changed into any other ineligible one: what
      is compiled, and so every byte of the file, stays the same. */
  lemma IneligibleIsInvisible(front: seq<Snippet>, hidden: Snippet, other: Snippet, back: seq<Snippet>)
    requires !Eligible(hidden) && !Eligible(other)
    ensures Chosen(front + [hidden] + back) == Chosen(front + back) == Chosen(front + [other] + back)
  {
    Dropped(front, hidden, back);
    Dropped(front, other, back);
  }

  lemma Dropped(front: seq<Snippet>, hidden: Snippet, back: seq<Snippet>)
    requires !Eligible(hidden)
    ensures Chosen(front + [hidden] + back) == Chosen(front + back)
  {
    ChosenAppend(front + [hidden], back);
    ChosenAppend(front, back);
    assert (front + [hidden])[..|front|] == front;
  }

  /** The match a snippet asks for: it is enabled, of normal security, with a readable body, a trigger and a
      mode. Whole words are asked for by two of the modes, a pattern by one. */
  predicate AsksFor(s: Snippet, m: Match) {
    && s.enabled && s.security == Normal && s.content == Plaintext(m.replace)
    && s.trigger == Some(m.trigger.text)
    && (s.mode == Some(Immediate) || s.mode == Some(Delimiter) || s.mode == Some(WordBoundary) || s.mode == Some(Regex))
    && (m.trigger.Pattern? <==> s.mode == Some(Regex))
    && (m.word <==> s.mode == Some(Delimiter) || s.mode == Some(WordBoundary))
  }

  lemma AsksForIts(s: Snippet, m: Match)
    ensures AsksFor(s, m) <==> Eligible(s) && m == MatchOf(s)
  {
  }

  /** Where the snippets stand that ask for a match. */
  ghost function Asking(snippets: seq<Snippet>): seq<nat> {
    if snippets == [] then []
    else
      var n := |snippets| - 1;
      Asking(snippets[..n]) + if Eligible(snippets[n]) then [n] else []
  }

  lemma {:induction false} AskingChosen(snippets: seq<Snippet>)
    ensures |Asking(snippets)| == |Chosen(snippets)|
    ensures forall i :: 0 <= i < |Asking(snippets)|
                        ==> Asking(snippets)[i] < |snippets| && snippets[Asking(snippets)[i]] == Chosen(snippets)[i]
  {
    hide Eligible;
    if snippets != [] {
      AskingChosen(snippets[..|snippets| - 1]);
    }
  }

  lemma {:induction false} AskingAscends(snippets: seq<Snippet>)
    ensures forall i :: 0 <= i < |Asking(snippets)| ==> Asking(snippets)[i] < |snippets|
    ensures forall i, j :: 0 <= i < j < |Asking(snippets)| ==> Asking(snippets)[i] < Asking(snippets)[j]
  {
    hide Eligible;
    if snippets != [] {
      AskingAscends(snippets[..|snippets| - 1]);
    }
  }

  lemma {:induction false} AskingHolds(snippets: seq<Snippet>, j: nat)
    requires j < |snippets| && Eligible(snippets[j])
    ensures j in Asking(snippets)
  {
    hide Eligible;
    if j < |snippets| - 1 {
      AskingHolds(snippets[..|snippets| - 1], j);
    }
  }

  /** The file, read back, is the list of the matches that are asked for: each stands for one snippet, in the
      order of the snippets, and no snippet that asks for one is missing. Nothing in it comes from a sensitive,
      disabled or encrypted snippet. */
  lemma FileHoldsOnlyEligible(snippets: seq<Snippet>) returns (matches: seq<Match>, places: seq<nat>)
    ensures ReadDocument(Document(Matches(Chosen(snippets)))) == Some(matches)
    ensures |places| == |matches| && forall i, j :: 0 <= i < j < |places| ==> places[i] < places[j]
    ensures forall i :: 0 <= i < |places| ==> places[i] < |snippets| && AsksFor(snippets[places[i]], matches[i])
    ensures forall j, m :: 0 <= j < |snippets| && AsksFor(snippets[j], m) ==> j in places
  {
    hide Document, ReadDocument, AsksFor, Eligible, MatchOf, Asking;
    matches, places := Matches(Chosen(snippets)), Asking(snippets);
    DocumentReadsBack(matches);
    AskingChosen(snippets);
    AskingAscends(snippets);
    forall i | 0 <= i < |places| ensures AsksFor(snippets[places[i]], matches[i]) {
      assert Chosen(snippets)[i] in Chosen(snippets);
      AsksForIts(snippets[places[i]], matches[i]);
    }
    forall j, m | 0 <= j < |snippets| && AsksFor(snippets[j], m) ensures j in places {
      AsksForIts(snippets[j], m);
      AskingHolds(snippets, j);
    }
  }
}
