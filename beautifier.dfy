/** The JsBeautify namespace: the beautifier's options, its nesting flags,
    and the Beautifier engine with its constructor and its `beautify`
    driver. The tokenizer and the per-token handlers have no bodies in the
    program, so the driver takes the token stream and what each handler
    appends to the output as inputs. */
module JsBeautify {
  import opened StringHelper

  type uint32 = x: int | 0 <= x < 0x1_0000_0000
  type int32 = x: int | -0x8000_0000 <= x < 0x8000_0000

  datatype BraceStyle = Expand | Collapse | EndExpand

  /** BeautifierOptions; `indentChar` is a wide character. */
  datatype BeautifierOptions = BeautifierOptions(
    indentSize: uint32,
    indentChar: char,
    indentWithTabs: bool,
    preserveNewLines: bool,
    jsLintHappy: bool,
    braceStyle: BraceStyle,
    keepArrayIndentation: bool,
    keepFunctionIndentation: bool,
    evalCode: bool,
    wrapLineLength: int32,
    breakChainedMethods: bool)

  /** The options a default-constructed BeautifierOptions holds. */
  const DefaultOptions := BeautifierOptions(0, '\0', false, false, false, Expand, false, false, false, 0, false)

  /** One nesting context (BeautifierFlags). */
  datatype BeautifierFlags = BeautifierFlags(
    previousMode: string,
    mode: string,
    varLine: bool,
    varLineTainted: bool,
    varLineReindented: bool,
    inHtmlComment: bool,
    ifLine: bool,
    chainExtraIndentation: int,
    inCase: bool,
    inCaseStatement: bool,
    caseBody: bool,
    indentationLevel: int,
    ternaryDepth: int)

  /** BeautifierFlags(mode): previous mode "BLOCK", every flag off, every
      count 0. A fresh context therefore never asks for a re-indent (its
      `varLine` is off) and never differs from the root mode "BLOCK" in
      its previous mode. */
  function NewFlags(mode: string): (f: BeautifierFlags)
    ensures f.mode == mode && f.previousMode == "BLOCK"
    ensures !f.varLine && !f.varLineTainted && !f.varLineReindented
    ensures !f.inHtmlComment && !f.ifLine && !f.inCase && !f.inCaseStatement && !f.caseBody
    ensures f.chainExtraIndentation == 0 && f.indentationLevel == 0 && f.ternaryDepth == 0
  {
    BeautifierFlags("BLOCK", mode, false, false, false, false, false, 0, false, false, false, 0, 0)
  }

  /** The token type tags the handler table knows ("TK_START_EXPR" ...
      "TK_UNKNOWN"), and "TK_EOF", which ends the token loop. */
  datatype TokenType =
    | StartExpr | EndExpr | StartBlock | EndBlock | Word | Semicolon | String
    | Equals | Operator | Comma | BlockComment | InlineComment | Comment | Dot
    | Unknown | Eof

  /** What getNextToken returns: the token's text and its type. */
  datatype Token = Token(text: string, kind: TokenType)

  // ---------------------------------------------------------------------
  // Constant tables
  // ---------------------------------------------------------------------

  const Whitespace: seq<char> := ['\n', '\r', '\t', ' ']
  const WordChars: string := "abcdefghijklmnopqrstuvwxyzABCDEFGHIJKLMNOPQRSTUVWXYZ0123456789_$"
  const Digits: string := "0123456789"

  /** The space-separated punctuator list the constructor splits. */
  const PunctuatorSource: string :=
    "+ - * / % & ++ -- = += -= *= /= %= == === != !== > < >= <= >> << >>> >>>= >>= "
    + "<<= && &= | || ! !! , : ? ^ ^= |= :: <?= <? ?> <%= <% %>"

  /** The comma-separated list of words that always start a new line. */
  const LineStarterSource: string :=
    "continue,try,throw,return,var,if,switch,"
    + "case,default,for,while,break,function"

  // ---------------------------------------------------------------------
  // Indent string
  // ---------------------------------------------------------------------

  /** The indentation unit: one tab with `indentWithTabs`, otherwise
      `indentSize` copies of `indentChar`. */
  function IndentString(opts: BeautifierOptions): (r: string)
    ensures opts.indentWithTabs ==> r == "\t"
    ensures !opts.indentWithTabs ==> |r| == opts.indentSize
    ensures !opts.indentWithTabs ==> forall i :: 0 <= i < |r| ==> r[i] == opts.indentChar
  {
    if opts.indentWithTabs then "\t" else seq(opts.indentSize, _ => opts.indentChar)
  }

  /** The code points of a wide string. */
  function Codes(s: string): seq<int>
  {
    seq(|s|, i requires 0 <= i < |s| => s[i] as int)
  }

  /** static_cast<int> of a uint32_t: values from 2^31 wrap to negatives. */
  function ToInt32(x: uint32): int32
  {
    if x < 0x8000_0000 then x else x - 0x1_0000_0000
  }

  /** The indent string as the constructor builds it, in code points. The
      two-argument wide-string constructor takes the count first and the
      character second; the call passes the indent character first, so the
      character's code becomes the count, and the indent size, cast to int
      and then to a 32-bit wide character, becomes the character repeated. */
  function IndentStringAsWritten(opts: BeautifierOptions): (r: seq<int>)
    ensures opts.indentWithTabs ==> r == ['\t' as int]
    ensures !opts.indentWithTabs ==> |r| == opts.indentChar as int
    ensures !opts.indentWithTabs ==> forall i :: 0 <= i < |r| ==> r[i] == ToInt32(opts.indentSize)
  {
    if opts.indentWithTabs then Codes("\t")
    else seq(opts.indentChar as int, _ => ToInt32(opts.indentSize) as int)
  }

  /** Four spaces asked for, thirty-two U+0004 characters built. */
  lemma IndentStringSwapCounterexample()
    ensures var opts := DefaultOptions.(indentSize := 4, indentChar := ' ');
      && IndentString(opts) == "    "
      && |IndentStringAsWritten(opts)| == 32
      && IndentStringAsWritten(opts)[0] == 4
      && IndentStringAsWritten(opts) != Codes(IndentString(opts))
  {
    var opts := DefaultOptions.(indentSize := 4, indentChar := ' ');
    assert |Codes(IndentString(opts))| == 4;
  }

  /** Without tabs, the constructor's indent string is the intended one
      exactly when the indent character's code equals the indent size. */
  lemma IndentStringAsWrittenAgrees(opts: BeautifierOptions)
    requires !opts.indentWithTabs
    ensures IndentStringAsWritten(opts) == Codes(IndentString(opts))
      <==> opts.indentChar as int == opts.indentSize
  {
    var built, meant := IndentStringAsWritten(opts), Codes(IndentString(opts));
    if opts.indentChar as int == opts.indentSize {
      assert ToInt32(opts.indentSize) == opts.indentSize;
      forall i | 0 <= i < |built| ensures built[i] == meant[i] {
      }
    } else {
      assert |built| != |meant|;
    }
  }

  // ---------------------------------------------------------------------
  // Preindent and final trim
  // ---------------------------------------------------------------------

  /** The characters `beautify` strips from the front of its input. */
  predicate IsPreindentChar(c: char)
  {
    c == ' ' || c == '\t'
  }

  /** The characters the final regular expression [\n ]+$ removes. */
  predicate IsTrailingSpace(c: char)
  {
    c == '\n' || c == ' '
  }

  /** The leading run of spaces and tabs of `s`. */
  function LeadingBlanks(s: string): (r: string)
    ensures |r| <= |s| && r == s[..|r|]
    ensures forall i :: 0 <= i < |r| ==> IsPreindentChar(r[i])
    ensures |r| == |s| || !IsPreindentChar(s[|r|])
    decreases |s|
  {
    if s != [] && IsPreindentChar(s[0]) then [s[0]] + LeadingBlanks(s[1..]) else []
  }

  /** Moving one more blank from the remaining input to the stripped part. */
  lemma LeadingBlanksStep(s: string, k: nat)
    requires k < |s| && IsPreindentChar(s[k])
    ensures s[..k] + LeadingBlanks(s[k..]) == s[..k + 1] + LeadingBlanks(s[k + 1..])
    ensures s[k..][1..] == s[k + 1..]
    ensures s[..k + 1] == s[..k] + [s[k]]
  {
    assert s[k..][1..] == s[k + 1..];
    assert s[..k + 1] == s[..k] + [s[k]];
  }

  /** `s` without its maximal trailing run of '\n' and ' '. */
  function TrimTrailing(s: string): (r: string)
    ensures |r| <= |s| && r == s[..|r|]
    ensures forall i :: |r| <= i < |s| ==> IsTrailingSpace(s[i])
    ensures r == [] || !IsTrailingSpace(r[|r| - 1])
    ensures s != [] && !IsTrailingSpace(s[|s| - 1]) ==> r == s
    decreases |s|
  {
    if s != [] && IsTrailingSpace(s[|s| - 1]) then TrimTrailing(s[..|s| - 1]) else s
  }

  /** The trimmed string is the only prefix that leaves behind nothing but
      '\n' and ' ' and does not itself end in one: the replaced match of
      [\n ]+$ starts at the leftmost position from which only those
      characters follow. It is a consequence of the contract of
      TrimTrailing: a shorter or longer candidate would end in '\n' or ' '. */
  lemma TrimTrailingUnique(s: string, t: string)
    requires |t| <= |s| && t == s[..|t|]
    requires forall i :: |t| <= i < |s| ==> IsTrailingSpace(s[i])
    requires t == [] || !IsTrailingSpace(t[|t| - 1])
    ensures TrimTrailing(s) == t
  {
  }

  /** The text `beautify` returns: the preindent, untouched, followed by
      the concatenated output fragments without their trailing run of
      '\n' and ' '; a final tab or '\r' is kept. */
  function Finalized(preindent: string, output: seq<string>): (r: string)
    ensures |preindent| <= |r| && r[..|preindent|] == preindent
    ensures var body, all := r[|preindent|..], Flatten(output);
      && |body| <= |all| && body == all[..|body|]
      && (forall i :: |body| <= i < |all| ==> IsTrailingSpace(all[i]))
      && (body == [] || !IsTrailingSpace(body[|body| - 1]))
  {
    preindent + TrimTrailing(Flatten(output))
  }

  // ---------------------------------------------------------------------
  // Token bookkeeping
  // ---------------------------------------------------------------------

  /** The last token type, the last token text and the one before it. */
  datatype LastSeen = LastSeen(lastType: TokenType, lastText: string, lastLastText: string)

  /** The bookkeeping after one dispatched token: inline comments leave it alone. */
  function Record(seen: LastSeen, token: Token): (r: LastSeen)
    ensures token.kind == InlineComment ==> r == seen
    ensures token.kind != InlineComment ==>
      r.lastType == token.kind && r.lastText == token.text && r.lastLastText == seen.lastText
  {
    if token.kind == InlineComment then seen
    else LastSeen(token.kind, token.text, seen.lastText)
  }

  /** The bookkeeping after dispatching `tokens` in order. */
  function Track(seen: LastSeen, tokens: seq<Token>): LastSeen
  {
    if tokens == [] then seen
    else Record(Track(seen, tokens[..|tokens| - 1]), tokens[|tokens| - 1])
  }

  /** The tokens of `tokens` that are not inline comments, in order. */
  function Significant(tokens: seq<Token>): seq<Token>
  {
    if tokens == [] then []
    else
      var last := tokens[|tokens| - 1];
      Significant(tokens[..|tokens| - 1]) + (if last.kind == InlineComment then [] else [last])
  }

  predicate HasEof(tokens: seq<Token>)
  {
    exists i :: 0 <= i < |tokens| && tokens[i].kind == Eof
  }

  /** Dispatching one more token records it on top of what came before. */
  lemma TrackStep(seen: LastSeen, tokens: seq<Token>, i: nat)
    requires i < |tokens|
    ensures Track(seen, tokens[..i + 1]) == Record(Track(seen, tokens[..i]), tokens[i])
  {
    assert tokens[..i + 1][..i] == tokens[..i];
  }

  /** One more handler's fragments land after the output so far. */
  lemma FlattenStep<T>(vs: seq<seq<T>>, i: nat)
    requires i < |vs|
    ensures Flatten(vs[..i + 1]) == Flatten(vs[..i]) + vs[i]
  {
    assert vs[..i + 1][..i] == vs[..i];
  }

  /** Where the token loop stops: the first end-of-input token. */
  function FirstEof(tokens: seq<Token>): (n: nat)
    requires HasEof(tokens)
    ensures n < |tokens| && tokens[n].kind == Eof
    ensures forall j :: 0 <= j < n ==> tokens[j].kind != Eof
  {
    if tokens[0].kind == Eof then 0
    else
      assert HasEof(tokens[1..]) by {
        var i :| 0 <= i < |tokens| && tokens[i].kind == Eof;
        assert tokens[1..][i - 1] == tokens[i];
      }
      var m := FirstEof(tokens[1..]);
      assert forall j :: 0 <= j < m ==> tokens[1..][j] == tokens[j + 1];
      1 + m
  }

  /** Inline comments are invisible to the bookkeeping. */
  lemma {:induction false} TrackIgnoresInlineComments(seen: LastSeen, tokens: seq<Token>)
    ensures Track(seen, tokens) == Track(seen, Significant(tokens))
    decreases |tokens|
  {
    if tokens != [] {
      var init, last := tokens[..|tokens| - 1], tokens[|tokens| - 1];
      TrackIgnoresInlineComments(seen, init);
      if last.kind != InlineComment {
        var sig := Significant(init) + [last];
        assert sig[..|sig| - 1] == Significant(init);
      } else {
        assert Track(seen, tokens) == Track(seen, init);
        assert Significant(tokens) == Significant(init) + [];
        assert Significant(init) + [] == Significant(init);
      }
    }
  }

  /** After a run of tokens the bookkeeping holds the type and text of the
      last token that is not an inline comment, and the text of the one
      before it; with fewer such tokens the older values shift through. */
  lemma {:induction false} TrackLastSignificant(seen: LastSeen, tokens: seq<Token>)
    ensures var after, sig := Track(seen, tokens), Significant(tokens);
      && (sig == [] ==> after == seen)
      && (sig != [] ==> after.lastType == sig[|sig| - 1].kind && after.lastText == sig[|sig| - 1].text)
      && after.lastLastText == (if |sig| >= 2 then sig[|sig| - 2].text
                                else if |sig| == 1 then seen.lastText
                                else seen.lastLastText)
    decreases |tokens|
  {
    if tokens != [] {
      TrackLastSignificant(seen, tokens[..|tokens| - 1]);
    }
  }

  // ---------------------------------------------------------------------
  // The engine
  // ---------------------------------------------------------------------

  /** The run state of one beautifier (the fields of its Impl). */
  class Beautifier {
    var opts: BeautifierOptions
    var flags: BeautifierFlags
    var flagStore: seq<BeautifierFlags>
    var wantedNewline: bool
    var justAddedNewline: bool
    var doBlockJustClosed: bool
    var indentString: string
    var preindentString: string
    var lastWord: string
    var lastType: TokenType
    var lastText: string
    var lastLastText: string
    var input: string
    var output: seq<string>
    var whitespace: seq<char>
    var wordchar: string
    var digits: string
    var punct: seq<string>
    var lineStarters: seq<string>
    var parserPos: int
    var nNewlines: int

    /** The token bookkeeping fields. */
    function Seen(): LastSeen
      reads this
    {
      LastSeen(lastType, lastText, lastLastText)
    }

    /** Beautifier(opts): a root "BLOCK" context at indentation 0, an empty
        flag store, no output, and the constant tables. */
    constructor (opts: BeautifierOptions)
      ensures this.opts == opts
      ensures flags == NewFlags("BLOCK")
      ensures flagStore == []
      ensures !wantedNewline && !justAddedNewline && !doBlockJustClosed
      ensures indentString == IndentString(opts)
      ensures preindentString == [] && lastWord == []
      ensures lastType == StartExpr && lastText == [] && lastLastText == []
      ensures input == [] && output == []
      ensures whitespace == Whitespace && wordchar == WordChars && digits == Digits
      ensures punct == Fields(PunctuatorSource, ' ')
      ensures lineStarters == Fields(LineStarterSource, ',')
      ensures parserPos == 0 && nNewlines == 0
    {
      var p := Split(PunctuatorSource, ' ');
      var l := Split(LineStarterSource, ',');
      this.opts := opts;
      flags := NewFlags("BLOCK");
      flagStore := [];
      wantedNewline := false;
      justAddedNewline := false;
      doBlockJustClosed := false;
      indentString := IndentString(opts);
      preindentString := [];
      lastWord := [];
      lastType := StartExpr;
      lastText := [];
      lastLastText := [];
      input := [];
      output := [];
      whitespace := Whitespace;
      wordchar := WordChars;
      digits := Digits;
      punct := p;
      lineStarters := l;
      parserPos := 0;
      nNewlines := 0;
    }

    /** The first loop of `beautify`: moves the leading spaces and tabs of
        `s` onto the preindent string, one character at a time, and gives
        back what is left of `s`. */
    method StripPreindent(s: string) returns (rest: string)
      modifies this`preindentString
      ensures preindentString == old(preindentString) + LeadingBlanks(s)
      ensures s == LeadingBlanks(s) + rest
      ensures rest == [] || !IsPreindentChar(rest[0])
    {
      rest := s;
      ghost var pre, k := preindentString, 0;
      while rest != [] && (rest[0] == ' ' || rest[0] == '\t')
        invariant k <= |s| && rest == s[k..]
        invariant preindentString == pre + s[..k]
        invariant LeadingBlanks(s) == s[..k] + LeadingBlanks(s[k..])
        decreases |rest|
      {
        LeadingBlanksStep(s, k);
        assert (pre + s[..k]) + [s[k]] == pre + s[..k + 1];
        preindentString := preindentString + [rest[0]];
        rest := rest[1..];
        k := k + 1;
      }
      assert s == s[..k] + rest;
    }

    /** One turn of the token loop: the token's handler appends `fragment`
        to the output; then, unless the token is an inline comment, the
        previous text moves to `lastLastText` and the token becomes the
        last one seen. */
    method Dispatch(token: Token, fragment: seq<string>)
      modifies this`lastType, this`lastText, this`lastLastText, this`output
      ensures Seen() == Record(old(Seen()), token)
      ensures output == old(output) + fragment
    {
      output := output + fragment;
      if token.kind != InlineComment {
        lastLastText := lastText;
        lastType := token.kind;
        lastText := token.text;
      }
    }

    /** The token loop of `beautify`: reads tokens until the first TK_EOF,
        dispatches every other one to its handler, which appends
        `fragments[i]` to the output, and records each token that is not
        an inline comment. */
    method RunTokens(tokens: seq<Token>, fragments: seq<seq<string>>)
      requires HasEof(tokens) && |fragments| == |tokens|
      modifies this`lastType, this`lastText, this`lastLastText, this`output
      ensures Seen() == Track(old(Seen()), tokens[..FirstEof(tokens)])
      ensures output == old(output) + Flatten(fragments[..FirstEof(tokens)])
    {
      ghost var start, written, n := Seen(), output, FirstEof(tokens);
      var i := 0;
      while true
        invariant 0 <= i <= n
        invariant Seen() == Track(start, tokens[..i])
        invariant output == written + Flatten(fragments[..i])
        decreases n - i
      {
        var token := tokens[i];
        if token.kind == Eof {
          assert i == n;
          break;
        }
        TrackStep(start, tokens, i);
        FlattenStep(fragments, i);
        Dispatch(token, fragments[i]);
        i := i + 1;
      }
    }

    /** beautify(s): strips the preindent from `s` (the caller's string is
        changed in place, `sRest` is its new value), runs the token loop,
        and returns the preindent followed by the trimmed output. */
    method Beautify(s: string, tokens: seq<Token>, fragments: seq<seq<string>>)
        returns (sweetCode: string, sRest: string)
      requires HasEof(tokens) && |fragments| == |tokens|
      modifies this`preindentString, this`input, this`parserPos
      modifies this`lastType, this`lastText, this`lastLastText, this`output
      ensures preindentString == old(preindentString) + LeadingBlanks(s)
      ensures s == LeadingBlanks(s) + sRest
      ensures sRest == [] || !IsPreindentChar(sRest[0])
      ensures input == sRest && parserPos == 0
      ensures Seen() == Track(old(Seen()), tokens[..FirstEof(tokens)])
      ensures output == old(output) + Flatten(fragments[..FirstEof(tokens)])
      ensures sweetCode == Finalized(preindentString, output)
    {
      sRest := StripPreindent(s);
      input := sRest;
      parserPos := 0;
      RunTokens(tokens, fragments);
      var joined := Concat(output);
      sweetCode := preindentString + TrimTrailing(joined);
    }
  }
}
