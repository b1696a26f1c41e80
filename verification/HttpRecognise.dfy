/**
 The parser's letter-by-letter recognisers agree with string comparison, on every run.

 An observer reads the same bytes and keeps the texts a person would: the method, the name
 and value of the current header, the chunk size. The theorem relates the recognisers' states
 and the flags and lengths they set to comparisons on these texts.
 */
module HttpRecognise {
  import opened Options
  import opened HttpTypes
  import opened HttpDispatch
  import opened HttpMachine
  import opened HttpInvariant
  import opened HttpText
  import opened HttpRuns

  // ---------- header names ----------

  /** The recogniser's state after the letters `n` of a name, in lower case. */
  function NameState(n: seq<Byte>): HeaderState {
    if n == W_CONNECTION || n == W_PROXY_CONNECTION then HConnection
    else if n == W_CONTENT_LENGTH then HContentLength
    else if n == W_TRANSFER_ENCODING then HTransferEncoding
    else if n == W_UPGRADE then HUpgrade
    else if n <= W_CONNECTION then
      if |n| <= 1 then HC else if |n| == 2 then HCO else if |n| == 3 then HCON else HMatchingConnection
    else if n <= W_CONTENT_LENGTH then HMatchingContentLength
    else if n <= W_PROXY_CONNECTION then HMatchingProxyConnection
    else if n <= W_TRANSFER_ENCODING then HMatchingTransferEncoding
    else if n <= W_UPGRADE then HMatchingUpgrade
    else HGeneral
  }

  predicate NameAgrees(p: Parser, name: seq<Byte>) {
    && |name| > 0
    && p.headerState == NameState(LowerAll(name))
    && (p.headerState != HGeneral ==> p.index == |name| - 1)
  }

  lemma NameBegins(p: Parser, ch: Byte)
    requires Token(ch) != 0
    ensures NameAgrees(p.(index := 0, headerState := NameStart(Token(ch))), [ch])
  {
    TokenLowers(ch);
    assert LowerAll([ch]) == [Token(ch)];
    forall w: seq<Byte> | |w| > 0 ensures [Token(ch)] <= w <==> w[0] == Token(ch) {
      PrefixSnoc([], Token(ch), w);
      assert [] + [Token(ch)] == [Token(ch)];
    }
  }

  /** Which of the words a string can be a prefix of. */
  lemma WordsApart(n: seq<Byte>)
    requires |n| > 0
    ensures n <= W_CONNECTION || n <= W_CONTENT_LENGTH ==> n[0] == 99
    ensures n <= W_PROXY_CONNECTION ==> n[0] == 112
    ensures n <= W_TRANSFER_ENCODING ==> n[0] == 116
    ensures n <= W_UPGRADE ==> n[0] == 117
    ensures |n| <= 3 ==> (n <= W_CONNECTION <==> n <= W_CONTENT_LENGTH)
    ensures |n| >= 4 && n <= W_CONNECTION ==> n[3] == 110
    ensures |n| >= 4 && n <= W_CONTENT_LENGTH ==> n[3] == 116
  {
    assert W_CONNECTION[..3] == W_CONTENT_LENGTH[..3];
    if |n| <= 3 {
      assert W_CONNECTION[..|n|] == W_CONNECTION[..3][..|n|];
      assert W_CONTENT_LENGTH[..|n|] == W_CONTENT_LENGTH[..3][..|n|];
    }
  }

  /** One more letter `c` of a word whose letters `n` have been matched. */
  lemma MatchGrows(p: Parser, n: seq<Byte>, c: Byte, w: seq<Byte>, found: HeaderState)
    requires 0 < |n| < |w| && n <= w && p.index == |n| - 1 && c != 0
    ensures var m := n + [c];
            MatchWord(p, c, w, found) ==
            if !(m <= w) then p.(index := |n|, headerState := HGeneral)
            else if |m| == |w| then p.(index := |n|, headerState := found)
            else p.(index := |n|)
  {
    PrefixSnoc(n, c, w);
  }

  lemma NameGrows(p: Parser, name: seq<Byte>, ch: Byte)
    requires NameAgrees(p, name) && Token(ch) != 0
    ensures NameAgrees(NameByte(p, Token(ch), ch), name + [ch])
  {
    hide LowerAll, MatchWord, Token, LowerCase;
    TokenLowers(ch);
    LowerSnoc(name, ch);
    var n, c := LowerAll(name), Token(ch);
    var m := n + [c];
    WholeWords(n);
    WholeWords(m);
    WordsApart(n);
    WordsApart(m);
    PrefixSnoc(n, c, W_CONNECTION);
    PrefixSnoc(n, c, W_PROXY_CONNECTION);
    PrefixSnoc(n, c, W_CONTENT_LENGTH);
    PrefixSnoc(n, c, W_TRANSFER_ENCODING);
    PrefixSnoc(n, c, W_UPGRADE);
    match p.headerState {
      case HMatchingConnection => MatchGrows(p, n, c, W_CONNECTION, HConnection);
      case HMatchingProxyConnection => MatchGrows(p, n, c, W_PROXY_CONNECTION, HConnection);
      case HMatchingContentLength => MatchGrows(p, n, c, W_CONTENT_LENGTH, HContentLength);
      case HMatchingTransferEncoding => MatchGrows(p, n, c, W_TRANSFER_ENCODING, HTransferEncoding);
      case HMatchingUpgrade => MatchGrows(p, n, c, W_UPGRADE, HUpgrade);
      case _ =>
    }
  }

  lemma WholeWords(n: seq<Byte>)
    ensures n == W_CONNECTION <==> n <= W_CONNECTION && |n| == 10
    ensures n == W_PROXY_CONNECTION <==> n <= W_PROXY_CONNECTION && |n| == 16
    ensures n == W_CONTENT_LENGTH <==> n <= W_CONTENT_LENGTH && |n| == 14
    ensures n == W_TRANSFER_ENCODING <==> n <= W_TRANSFER_ENCODING && |n| == 17
    ensures n == W_UPGRADE <==> n <= W_UPGRADE && |n| == 7
  {}

  /** The recogniser says a word if and only if the name is that word, ignoring case. */
  lemma NameMeaning(name: seq<Byte>)
    ensures var h := NameState(LowerAll(name));
            && (h == HConnection <==> IsConnectionName(name))
            && (h == HContentLength <==> IsName(name, W_CONTENT_LENGTH))
            && (h == HTransferEncoding <==> IsName(name, W_TRANSFER_ENCODING))
            && (h == HUpgrade <==> IsName(name, W_UPGRADE))
  {
    hide LowerAll;
    assert |W_CONNECTION| == 10 && |W_PROXY_CONNECTION| == 16 && |W_CONTENT_LENGTH| == 14
        && |W_TRANSFER_ENCODING| == 17 && |W_UPGRADE| == 7;
  }

  // ---------- header values ----------

  datatype Progress = Matching | Found | Lost

  /** How far the value text `v` is on the way to `word`. */
  function WordState(v: seq<Byte>, word: seq<Byte>): Progress {
    if IsWordAndSpaces(v, word) then Found
    else if LowerAll(v) <= word then Matching
    else Lost
  }

  predicate WordAgrees(p: Parser, v: seq<Byte>, word: seq<Byte>, matching: HeaderState, found: HeaderState) {
    match WordState(v, word)
    case Matching => p.headerState == matching && p.index == |v| - 1
    case Found => p.headerState == found
    case Lost => p.headerState == HGeneral
  }

  predicate Letters(word: seq<Byte>) {
    |word| > 1 && forall i :: 0 <= i < |word| ==> 97 <= word[i] <= 122 || word[i] == 45
  }

  predicate ValueAgrees(p: Parser, name: seq<Byte>, v: seq<Byte>, folded: bool) {
    && |v| > 0
    && (IsName(name, W_UPGRADE) ==> p.flags.upgrade)
    && if folded then p.headerState == HGeneral && !IsName(name, W_CONTENT_LENGTH)
       else if IsName(name, W_CONTENT_LENGTH) then p.headerState == HContentLength && p.contentLength == DecValue(v)
       else if IsName(name, W_TRANSFER_ENCODING) then WordAgrees(p, v, W_CHUNKED, HMatchingChunked, HChunked)
       else if IsConnectionName(name) then
         if LowerCase(v[0]) == 107 then WordAgrees(p, v, W_KEEP_ALIVE, HMatchingKeepAlive, HKeepAlive)
         else if LowerCase(v[0]) == 99 then WordAgrees(p, v, W_CLOSE, HMatchingClose, HClose)
         else p.headerState == HGeneral
       else p.headerState == HGeneral
  }

  lemma WordBegins(p: Parser, ch: Byte, word: seq<Byte>, matching: HeaderState, found: HeaderState)
    requires Letters(word) && LowerCase(ch) == word[0] && p.index == 0 && p.headerState == matching
    ensures WordAgrees(p, [ch], word, matching, found)
  {
    PrefixSnoc([], LowerCase(ch), word);
    LowerSnoc([], ch);
    assert [] + [ch] == [ch];
    assert LowerAll([]) == [];
    assert [] + [LowerCase(ch)] == [LowerCase(ch)];
  }

  lemma WordsAndSpacesSnoc(v: seq<Byte>, ch: Byte, word: seq<Byte>)
    requires |v| > 0
    ensures |v| >= |word| ==> (IsWordAndSpaces(v + [ch], word) <==> IsWordAndSpaces(v, word) && ch == SP)
    ensures |v| + 1 == |word| ==> (IsWordAndSpaces(v + [ch], word) <==> LowerAll(v + [ch]) <= word)
    ensures |v| + 1 < |word| ==> !IsWordAndSpaces(v + [ch], word)
    ensures LowerAll(v) <= word && |v| == |word| ==> IsWordAndSpaces(v, word)
  {
    LowerSnoc(v, ch);
    if |v| >= |word| {
      assert LowerAll(v + [ch])[..|word|] == LowerAll(v)[..|word|];
      if IsWordAndSpaces(v + [ch], word) {
        assert (v + [ch])[|v|] == SP;
        forall i | |word| <= i < |v| ensures v[i] == SP { assert (v + [ch])[i] == SP; }
      }
    }
  }

  lemma WordStateGrows(v: seq<Byte>, ch: Byte, word: seq<Byte>)
    requires |v| > 0 && Letters(word) && ch != CR
    ensures match WordState(v, word)
            case Matching =>
              && |v| < |word| && LowerAll(v) <= word
              && WordState(v + [ch], word)
                 == if Lower(ch) != word[|v|] then Lost else if |v| + 1 == |word| then Found else Matching
            case Found => WordState(v + [ch], word) == if ch == SP then Found else Lost
            case Lost => WordState(v + [ch], word) == Lost
  {
    var n := LowerAll(v);
    LowerSnoc(v, ch);
    WordsAndSpacesSnoc(v, ch, word);
    PrefixSnoc(n, LowerCase(ch), word);
    LongEnough(v, word);
    if |v| < |word| {
      LowerLowers(ch, word[|v|]);
    }
    hide IsWordAndSpaces, Lower, LowerCase, LowerAll;
  }

  /** One more byte `ch` of a value in which `word` is looked for. */
  lemma MatchValueGrows(p: Parser, v: seq<Byte>, ch: Byte, word: seq<Byte>, found: HeaderState)
    requires |v| > 0 && Letters(word) && ch != CR && p.index == |v| - 1 && WordState(v, word) == Matching
    ensures var q := MatchWord(p, Lower(ch), word, found);
            && q == p.(index := |v|, headerState := q.headerState)
            && match WordState(v + [ch], word)
               case Matching => q.headerState == p.headerState
               case Found => q.headerState == found
               case Lost => q.headerState == HGeneral
  {
    hide WordState, Lower, Letters, LowerAll, IsWordAndSpaces, MatchWord;
    WordStateGrows(v, ch, word);
    PrefixSnoc(LowerAll(v), Lower(ch), word);
    LowerNotNul(ch);
    MatchGrows(p, LowerAll(v), Lower(ch), word, found);
  }

  lemma LowerNotNul(c: Byte)
    ensures Lower(c) != 0
  {}

  lemma LongEnough(v: seq<Byte>, word: seq<Byte>)
    ensures IsWordAndSpaces(v, word) ==> |v| >= |word|
  {}

  // ---------- the observer ----------

  datatype Seen = Seen(
    name: seq<Byte>,          // of the current header
    value: Option<seq<Byte>>, // its value so far, continuation lines joined
    folded: bool,             // the value has a continuation line
    size: seq<Byte>,          // digits of the current chunk size
    chunkTotal: nat,          // sum of the chunk sizes announced so far
    chunked: bool, keepAlive: bool, close: bool, upgrade: bool, // what the headers said so far
    length: Option<nat>)      // the last Content-Length

  const BLANK := Seen([], None, false, [], 0, false, false, false, false, None)

  function SeeValue(o: Seen, v: seq<Byte>): Seen {
    o.(value := Some(v),
    length := if IsName(o.name, W_CONTENT_LENGTH) then Some(DecValue(v)) else o.length,
    upgrade := o.upgrade || IsName(o.name, W_UPGRADE))
  }

  /** A header is over: what its name and value say, by string comparison. */
  function SeeHeader(o: Seen): Seen {
    if o.value.None? || o.folded then o
    else
      var v := o.value.value;
      o.(keepAlive := o.keepAlive || (IsConnectionName(o.name) && IsWordAndSpaces(v, W_KEEP_ALIVE)),
      close := o.close || (IsConnectionName(o.name) && IsWordAndSpaces(v, W_CLOSE)),
      chunked := o.chunked || (IsName(o.name, W_TRANSFER_ENCODING) && IsWordAndSpaces(v, W_CHUNKED)))
  }

  /** What the observer has seen after a dispatch `a` of `ch` in `p`. */
  function See(o: Seen, p: Parser, a: Act, ch: Byte): Seen {
    if a.note == Some(MessageBegin) then BLANK
    else match p.state
      case HeaderFieldStart => if a.p.state.HeaderField? then o.(name := [ch], value := None, folded := false) else o
      case HeaderField => if a.p.state.HeaderField? then o.(name := o.name + [ch]) else o
      case HeaderValueDiscardWs => if a.p.state.HeaderValue? then SeeValue(o, [ch]) else o
      case HeaderValueStart => SeeValue(o, (if o.value.Some? then o.value.value else []) + [ch]).(folded := true)
      case HeaderValue => if a.p.state.HeaderValue? && o.value.Some? then SeeValue(o, o.value.value + [ch]) else o
      case HeaderValueLws => if ch == SP || ch == HT then o else SeeHeader(o)
      case ChunkSizeStart => o.(size := [ch])
      case ChunkSize => if a.p.state.ChunkSize? then o.(size := o.size + [ch]) else o
      case ChunkSizeAlmostDone => o.(chunkTotal := o.chunkTotal + HexValue(o.size))
      case _ => o
  }

  // ---------- agreement ----------

  predicate FlagsAgree(f: Flags, o: Seen) {
    f.chunked == o.chunked && f.keepAlive == o.keepAlive && f.close == o.close && f.upgrade == o.upgrade
  }

  /** The states of a message head, after its first byte and before its body. */
  predicate InHead(s: State) {
    !(s.Dead? || s.StartReq? || s.StartRes? || s.StartReqOrRes? || IsChunkState(s) || IsBodyState(s) || s.MessageDone?)
  }

  /** Before the body, the length field is the last Content-Length, or the sentinel when there was none. */
  predicate LengthAgrees(p: Parser, o: Seen) {
    InHead(p.state) && !p.flags.trailing ==> p.contentLength == if o.length.Some? then o.length.value else ULLONG_MAX
  }

  predicate NameIs(p: Parser, o: Seen) {
    o.value.None? && !o.folded && |o.name| > 0 && p.headerState == NameState(LowerAll(o.name))
  }

  predicate TextAgrees(p: Parser, o: Seen) {
    match p.state
    case HeaderField => o.value.None? && !o.folded && NameAgrees(p, o.name)
    case HeaderValueDiscardWs => NameIs(p, o)
    case HeaderValueDiscardWsAlmostDone => NameIs(p, o)
    case HeaderValueDiscardLws => NameIs(p, o)
    case HeaderValue => o.value.Some? && ValueAgrees(p, o.name, o.value.value, o.folded)
    case HeaderAlmostDone => LineAgrees(p, o)
    case HeaderValueLws => LineAgrees(p, o)
    case HeaderValueStart => LineAgrees(p, o)
    case ChunkSize => p.contentLength == HexValue(o.size)
    case ChunkParameters => p.contentLength == HexValue(o.size)
    case ChunkSizeAlmostDone => p.contentLength == HexValue(o.size)
    case _ => true
  }

  predicate LineAgrees(p: Parser, o: Seen) {
    if o.value.Some? then ValueAgrees(p, o.name, o.value.value, o.folded) else NameIs(p, o)
  }

  predicate BetweenMessages(s: State) { s.Dead? || s.StartReq? || s.StartRes? || s.StartReqOrRes? }

  predicate Agrees(p: Parser, o: Seen) {
    && (BetweenMessages(p.state) || FlagsAgree(p.flags, o))
    && LengthAgrees(p, o)
    && TextAgrees(p, o)
  }

  predicate StaysInAgreement(p: Parser, a: Act, ch: Byte, o: Seen) {
    a.next != Fail ==> Agrees(a.p, See(o, p, a, ch))
  }

  /** States in which the observer keeps no text. */
  predicate TextFree(s: State) {
    !(s.HeaderField? || s.HeaderValueDiscardWs? || s.HeaderValueDiscardWsAlmostDone? || s.HeaderValueDiscardLws?
      || s.HeaderValue? || s.HeaderAlmostDone? || s.HeaderValueLws? || s.HeaderValueStart?
      || s.ChunkSizeStart? || s.ChunkSize? || s.ChunkParameters? || s.ChunkSizeAlmostDone?)
  }

  /** The states of a start line. */
  predicate StartLine(s: State) {
    var g := GroupOf(s);
    g == GUrl || g == GSpaces || g == GMethod || g == GResLine || g == GReqLine
  }

  lemma StartLineStates(s: State)
    ensures StartLine(s) || s.HeaderFieldStart? ==> InHead(s) && TextFree(s)
    ensures StartLine(s) ==> !s.HeaderFieldStart?
  {
    LineStates(s);
    GroupStates(s);
    hide GroupOf;
  }

  /** Nothing the observer looks at happens in this dispatch of the start line. */
  predicate Quiet(p: Parser, a: Act) {
    a.next == Fail ||
    (&& a.p.flags == p.flags && a.p.contentLength == p.contentLength && a.note.None?
     && (StartLine(a.p.state) || a.p.state.HeaderFieldStart?))
  }

  lemma QuietAgrees(p: Parser, a: Act, ch: Byte, o: Seen)
    requires Agrees(p, o) && StartLine(p.state) && Quiet(p, a)
    ensures StaysInAgreement(p, a, ch, o)
  {
    StartLineStates(p.state);
    StartLineStates(a.p.state);
    hide StartLine;
  }

  lemma QuietUrl(p: Parser, ch: Byte)
    requires GroupOf(p.state) == GUrl
    ensures Quiet(p, DispatchUrl(p, ch))
  {
    LineStates(p.state);
    UrlStates(p.state, ch);
    LineStates(ParseUrlChar(p.state, ch));
    assert GroupOf(ReqHttpStart) == GReqLine && GroupOf(ReqLineAlmostDone) == GReqLine;
    hide ParseUrlChar, GroupOf;
  }

  lemma QuietSpaces(p: Parser, ch: Byte)
    requires GroupOf(p.state) == GSpaces
    ensures Quiet(p, DispatchSpacesBeforeUrl(p, ch))
  {
    GroupStates(p.state);
    UrlStates(p.state, ch);
    LineStates(ParseUrlChar(p.state, ch));
    UrlStates(ReqServerStart, ch);
    LineStates(ParseUrlChar(ReqServerStart, ch));
    hide ParseUrlChar, GroupOf;
  }

  lemma QuietMethod(p: Parser, ch: Byte)
    requires GroupOf(p.state) == GMethod
    ensures Quiet(p, DispatchMethod(p, ch))
  {
    GroupStates(p.state);
    assert GroupOf(ReqSpacesBeforeUrl) == GSpaces;
    hide GroupOf, SwitchMethod, MethodString;
  }

  lemma QuietResLine(p: Parser, ch: Byte)
    requires GroupOf(p.state) == GResLine
    ensures Quiet(p, DispatchResLine(p, ch))
  {
    LineStates(p.state);
    LineStates(DispatchResLine(p, ch).p.state);
    hide GroupOf;
  }

  lemma QuietReqLine(p: Parser, ch: Byte)
    requires GroupOf(p.state) == GReqLine
    ensures Quiet(p, DispatchReqLine(p, ch))
  {
    LineStates(p.state);
    LineStates(DispatchReqLine(p, ch).p.state);
    hide GroupOf;
  }

  lemma AgreesStart(p: Parser, ch: Byte, o: Seen)
    requires Agrees(p, o)
    ensures GroupOf(p.state) == GStart ==> StaysInAgreement(p, DispatchStart(p, ch), ch, o)
    ensures GroupOf(p.state) == GStartReq ==> StaysInAgreement(p, DispatchStartReq(p, ch), ch, o)
  {
    GroupStates(p.state);
    hide GroupOf, NameIs, NameAgrees, LineAgrees, ValueAgrees, SeeValue, SeeHeader, HexValue;
  }

  lemma AgreesFieldStart(p: Parser, ch: Byte, o: Seen)
    requires Agrees(p, o) && GroupOf(p.state) == GFieldStart
    ensures StaysInAgreement(p, DispatchFieldStart(p, ch), ch, o)
  {
    hide GroupOf, NameByte, NameStart, NameState, ValueAgrees, Token, SeeValue, SeeHeader, LowerAll, LineAgrees;
    GroupStates(p.state);
    if Token(ch) != 0 {
      NameBegins(p.(state := HeaderField), ch);
    }
  }

  lemma AgreesField(p: Parser, ch: Byte, o: Seen)
    requires Agrees(p, o) && GroupOf(p.state) == GField
    ensures StaysInAgreement(p, DispatchField(p, ch), ch, o)
  {
    hide GroupOf, NameByte, NameStart, NameState, ValueAgrees, Token;
    GroupStates(p.state);
    if Token(ch) != 0 {
      NameGrows(p, o.name, ch);
      NameKeeps(p, Token(ch), ch);
    }
  }

  lemma NameKeeps(p: Parser, c: Byte, ch: Byte)
    ensures var q := NameByte(p, c, ch); q == p.(headerState := q.headerState, index := q.index)
  {}

  lemma LettersOfWords()
    ensures Letters(W_CHUNKED) && Letters(W_KEEP_ALIVE) && Letters(W_CLOSE)
    ensures W_CHUNKED[0] == 99 && W_KEEP_ALIVE[0] == 107 && W_CLOSE[0] == 99
  {}

  lemma NotBegun(p: Parser, ch: Byte, word: seq<Byte>, matching: HeaderState, found: HeaderState)
    requires Letters(word) && LowerCase(ch) != word[0] && p.headerState == HGeneral
    ensures WordAgrees(p, [ch], word, matching, found)
  {
    PrefixSnoc([], LowerCase(ch), word);
    LowerSnoc([], ch);
    assert [] + [ch] == [ch];
    assert LowerAll([]) == [];
    assert [] + [LowerCase(ch)] == [LowerCase(ch)];
  }

  /** What the first byte of a value does to the fields the observer looks at. */
  predicate Begun(p: Parser, q: Parser, name: seq<Byte>, v: seq<Byte>) {
    && q.state.HeaderValue?
    && q.contentLength == (if IsName(name, W_CONTENT_LENGTH) then DecValue(v) else p.contentLength)
    && q.flags == p.flags.(upgrade := p.flags.upgrade || IsName(name, W_UPGRADE))
  }

  /** The first byte of a value. */
  lemma ValueBegins(p: Parser, name: seq<Byte>, ch: Byte)
    requires p.headerState == NameState(LowerAll(name)) && ch != CR
    ensures var a := ValueStart(p, ch);
            a.next == Fail || (a.note.None? && Begun(p, a.p, name, [ch]) && ValueAgrees(a.p, name, [ch], false))
  {
    NameMeaning(name);
    LettersOfWords();
    LowerLowers(ch, 99);
    LowerLowers(ch, 107);
    var q := ValueStart(p, ch).p;
    DecSnoc([], ch);
    assert [] + [ch] == [ch];
    hide WordAgrees, NameState, LowerAll, Lower, LowerCase, IsName, DecValue;
    if p.headerState.HTransferEncoding? {
      if LowerCase(ch) == 99 {
        WordBegins(q, ch, W_CHUNKED, HMatchingChunked, HChunked);
      } else {
        NotBegun(q, ch, W_CHUNKED, HMatchingChunked, HChunked);
      }
    } else if p.headerState.HConnection? {
      if LowerCase(ch) == 107 {
        WordBegins(q, ch, W_KEEP_ALIVE, HMatchingKeepAlive, HKeepAlive);
      } else if LowerCase(ch) == 99 {
        WordBegins(q, ch, W_CLOSE, HMatchingClose, HClose);
      }
    }
  }

  lemma AgreesValueStart(p: Parser, ch: Byte, o: Seen)
    requires Agrees(p, o) && p.state.HeaderValueDiscardWs? && ch != CR
    ensures ValueStart(p, ch).next != Fail ==> Agrees(ValueStart(p, ch).p, SeeValue(o, [ch]))
  {
    hide ValueAgrees, ValueStart, IsName, DecValue, NameState;
    ValueBegins(p, o.name, ch);
  }

  /** The blank that starts a continuation line: whatever the value was, it is no longer a word looked for. */
  lemma FoldBegins(p: Parser, o: Seen, v: seq<Byte>, ch: Byte)
    requires LineAgrees(p, o) && (ch == SP || ch == HT) && |v| > 0
    ensures var a := ValueStart(p, ch);
            a.next == Fail ||
            (&& a.note.None? && !IsName(o.name, W_CONTENT_LENGTH)
             && Begun(p, a.p, o.name, v) && ValueAgrees(a.p, o.name, v, true))
  {
    NameMeaning(o.name);
    hide WordState, NameState, LowerAll, DecValue, IsName;
  }

  lemma AgreesFold(p: Parser, ch: Byte, o: Seen)
    requires Agrees(p, o) && p.state.HeaderValueStart? && (ch == SP || ch == HT)
    ensures StaysInAgreement(p, ValueStart(p, ch), ch, o)
  {
    hide ValueAgrees, ValueStart, IsName, DecValue, NameState, LineAgrees;
    var v := (if o.value.Some? then o.value.value else []) + [ch];
    FoldBegins(p, o, v, ch);
  }

  lemma ChunkedGrows(p: Parser, v: seq<Byte>, ch: Byte)
    requires |v| > 0 && ch != CR && WordAgrees(p, v, W_CHUNKED, HMatchingChunked, HChunked)
    ensures var a := ValueByte(p, ch);
            && a == Go(p.(index := a.p.index, headerState := a.p.headerState))
            && WordAgrees(a.p, v + [ch], W_CHUNKED, HMatchingChunked, HChunked)
  {
    LettersOfWords();
    hide WordState, MatchWord, Letters, Lower, LengthDigit;
    WordStateGrows(v, ch, W_CHUNKED);
    if WordState(v, W_CHUNKED) == Matching {
      MatchValueGrows(p, v, ch, W_CHUNKED, HChunked);
    }
  }

  lemma KeepAliveGrows(p: Parser, v: seq<Byte>, ch: Byte)
    requires |v| > 0 && ch != CR && WordAgrees(p, v, W_KEEP_ALIVE, HMatchingKeepAlive, HKeepAlive)
    ensures var a := ValueByte(p, ch);
            && a == Go(p.(index := a.p.index, headerState := a.p.headerState))
            && WordAgrees(a.p, v + [ch], W_KEEP_ALIVE, HMatchingKeepAlive, HKeepAlive)
  {
    LettersOfWords();
    hide WordState, MatchWord, Letters, Lower, LengthDigit;
    WordStateGrows(v, ch, W_KEEP_ALIVE);
    if WordState(v, W_KEEP_ALIVE) == Matching {
      MatchValueGrows(p, v, ch, W_KEEP_ALIVE, HKeepAlive);
    }
  }

  lemma CloseGrows(p: Parser, v: seq<Byte>, ch: Byte)
    requires |v| > 0 && ch != CR && WordAgrees(p, v, W_CLOSE, HMatchingClose, HClose)
    ensures var a := ValueByte(p, ch);
            && a == Go(p.(index := a.p.index, headerState := a.p.headerState))
            && WordAgrees(a.p, v + [ch], W_CLOSE, HMatchingClose, HClose)
  {
    LettersOfWords();
    hide WordState, MatchWord, Letters, Lower, LengthDigit;
    WordStateGrows(v, ch, W_CLOSE);
    if WordState(v, W_CLOSE) == Matching {
      MatchValueGrows(p, v, ch, W_CLOSE, HClose);
    }
  }

  /** One more byte of a value. */
  lemma ValueGrows(p: Parser, name: seq<Byte>, v: seq<Byte>, folded: bool, ch: Byte)
    requires Dispatching(p) && p.state.HeaderValue? && ch != CR && ValueAgrees(p, name, v, folded)
    ensures var a := ValueByte(p, ch);
            a.next == Fail ||
            (&& a.p == p.(index := a.p.index, headerState := a.p.headerState, contentLength := a.p.contentLength)
             && a.p.contentLength == (if IsName(name, W_CONTENT_LENGTH) then DecValue(v + [ch]) else p.contentLength)
             && a.note.None?
             && ValueAgrees(a.p, name, v + [ch], folded))
  {
    hide IsName, IsConnectionName, WordAgrees, DecValue, LengthDigit, MatchWord, Wf, LowerCase;
    var w := v + [ch];
    assert w[0] == v[0] && |w| > 0;
    if !folded {
      if IsName(name, W_CONTENT_LENGTH) {
        DecSnoc(v, ch);
        LengthIsPlain(p, ch);
      } else if IsName(name, W_TRANSFER_ENCODING) {
        ChunkedGrows(p, v, ch);
      } else if IsConnectionName(name) {
        if LowerCase(v[0]) == 107 {
          KeepAliveGrows(p, v, ch);
        } else if LowerCase(v[0]) == 99 {
          CloseGrows(p, v, ch);
        }
      }
    }
  }

  lemma AgreesValueByte(p: Parser, ch: Byte, o: Seen)
    requires Dispatching(p) && Agrees(p, o) && p.state.HeaderValue? && ch != CR
    ensures StaysInAgreement(p, ValueByte(p, ch), ch, o)
  {
    hide ValueAgrees, ValueByte, IsName, DecValue, Wf;
    ValueGrows(p, o.name, o.value.value, o.folded, ch);
    if IsName(o.name, W_UPGRADE) {
      UpgradeSeen(p, o);
    }
  }

  lemma UpgradeSeen(p: Parser, o: Seen)
    requires Agrees(p, o) && p.state.HeaderValue? && IsName(o.name, W_UPGRADE)
    ensures o.upgrade
  {}

  lemma LengthIsPlain(p: Parser, ch: Byte)
    requires Dispatching(p) && p.state.HeaderValue? && p.headerState.HContentLength?
    ensures var a := LengthDigit(p, ch);
            || a.next == Fail
            || a == Go(p.(contentLength := if IsNum(ch) then p.contentLength * 10 + (ch - 48) else p.contentLength))
  {
    if IsNum(ch) {
      LengthNeverWraps(p, ch);
    }
  }

  lemma FirstLetterOfWord(v: seq<Byte>, word: seq<Byte>)
    requires |word| > 0 && IsWordAndSpaces(v, word)
    ensures LowerCase(v[0]) == word[0]
  {
    assert LowerAll(v)[..|word|][0] == word[0];
  }

  predicate SaysWord(o: Seen, word: seq<Byte>) {
    o.value.Some? && !o.folded && IsWordAndSpaces(o.value.value, word)
  }

  /** At the end of a header, the recogniser has found a word if and only if name and value are the words looked for. */
  lemma WordMeaning(p: Parser, o: Seen)
    requires LineAgrees(p, o)
    ensures p.headerState == HKeepAlive <==> IsConnectionName(o.name) && SaysWord(o, W_KEEP_ALIVE)
    ensures p.headerState == HClose <==> IsConnectionName(o.name) && SaysWord(o, W_CLOSE)
    ensures p.headerState == HChunked <==> IsName(o.name, W_TRANSFER_ENCODING) && SaysWord(o, W_CHUNKED)
  {
    LettersOfWords();
    if o.value.Some? {
      if IsWordAndSpaces(o.value.value, W_KEEP_ALIVE) {
        FirstLetterOfWord(o.value.value, W_KEEP_ALIVE);
      }
      if IsWordAndSpaces(o.value.value, W_CLOSE) {
        FirstLetterOfWord(o.value.value, W_CLOSE);
      }
    }
    NamesApart(o.name);
    hide IsName, IsWordAndSpaces, LowerCase, LowerAll, Letters;
  }

  lemma NamesApart(name: seq<Byte>)
    ensures IsName(name, W_TRANSFER_ENCODING) ==> !IsConnectionName(name) && !IsName(name, W_CONTENT_LENGTH)
    ensures IsConnectionName(name) ==> !IsName(name, W_CONTENT_LENGTH)
  {
    hide LowerAll;
    assert |W_CONNECTION| == 10 && |W_PROXY_CONNECTION| == 16 && |W_CONTENT_LENGTH| == 14 && |W_TRANSFER_ENCODING| == 17;
  }

  lemma AgreesLineEnd(p: Parser, o: Seen)
    requires Agrees(p, o) && p.state.HeaderValueLws?
    ensures Agrees(HeaderFinished(p), SeeHeader(o))
  {
    hide LineAgrees, IsName, IsConnectionName, IsWordAndSpaces;
    WordMeaning(p, o);
  }

  predicate BlankIfFold(p: Parser, ch: Byte) { p.state.HeaderValueStart? ==> ch == SP || ch == HT }

  lemma StateIrrelevant(p: Parser, s: State, o: Seen)
    ensures NameIs(p.(state := s), o) == NameIs(p, o)
    ensures LineAgrees(p.(state := s), o) == LineAgrees(p, o)
    ensures o.value.Some? ==>
              ValueAgrees(p.(state := s), o.name, o.value.value, o.folded)
                  == ValueAgrees(p, o.name, o.value.value, o.folded)
  {
    hide NameState, WordState, IsName, DecValue;
  }

  lemma AgreesInValue(p: Parser, ch: Byte, o: Seen)
    requires Dispatching(p) && Agrees(p, o) && p.state.HeaderValue?
    ensures StaysInAgreement(p, DispatchValue(p, ch), ch, o)
  {
    hide ValueByte, ValueStart, HeaderFinished, SeeHeader, SeeValue, NameIs, ValueAgrees, FlagsAgree, Wf;
    if ch != CR && ch != LF {
      AgreesValueByte(p, ch, o);
    } else {
      StateIrrelevant(p, HeaderAlmostDone, o);
    }
  }

  lemma AgreesAfterValue(p: Parser, ch: Byte, o: Seen)
    requires Agrees(p, o) && (p.state.HeaderAlmostDone? || p.state.HeaderValueLws?)
    ensures StaysInAgreement(p, DispatchValue(p, ch), ch, o)
  {
    hide ValueByte, ValueStart, HeaderFinished, SeeHeader, SeeValue, NameIs, ValueAgrees, FlagsAgree, Wf;
    if p.state.HeaderAlmostDone? {
      StateIrrelevant(p, HeaderValueLws, o);
    } else if ch != SP && ch != HT {
      AgreesLineEnd(p, o);
    } else {
      StateIrrelevant(p, HeaderValueStart, o);
    }
  }

  lemma AgreesText(p: Parser, ch: Byte, o: Seen)
    requires Dispatching(p) && Agrees(p, o) && BlankIfFold(p, ch)
    requires p.state.HeaderValueStart? || p.state.HeaderValue? || p.state.HeaderAlmostDone? || p.state.HeaderValueLws?
    ensures StaysInAgreement(p, DispatchValue(p, ch), ch, o)
  {
    hide StaysInAgreement, Agrees, Dispatching, ValueStart, ValueByte, HeaderFinished;
    if p.state.HeaderValueStart? {
      AgreesFold(p, ch, o);
    } else if p.state.HeaderValue? {
      AgreesInValue(p, ch, o);
    } else {
      AgreesAfterValue(p, ch, o);
    }
  }

  lemma AgreesValue(p: Parser, ch: Byte, o: Seen)
    requires Dispatching(p) && Agrees(p, o) && GroupOf(p.state) == GValue && BlankIfFold(p, ch)
    ensures StaysInAgreement(p, DispatchValue(p, ch), ch, o)
  {
    LineStates(p.state);
    hide GroupOf, ValueByte, ValueStart, HeaderFinished, SeeHeader, SeeValue, NameIs, ValueAgrees, FlagsAgree, Wf,
        LineAgrees;
    if p.state.HeaderValueDiscardWs? {
      AgreesDiscard(p, ch, o);
    } else if p.state.HeaderValueDiscardWsAlmostDone? {
      StateIrrelevant(p, HeaderValueDiscardLws, o);
    } else if p.state.HeaderValueDiscardLws? {
      StateIrrelevant(p, HeaderValueDiscardWs, o);
    } else {
      AgreesText(p, ch, o);
      hide StaysInAgreement;
    }
  }

  lemma AgreesDiscard(p: Parser, ch: Byte, o: Seen)
    requires Agrees(p, o) && p.state.HeaderValueDiscardWs?
    ensures StaysInAgreement(p, DispatchValue(p, ch), ch, o)
  {
    if ch != CR {
      AgreesValueStart(p, ch, o);
      ValueStartEnds(p, ch);
    }
    hide ValueStart, SeeValue, NameIs, ValueAgrees;
  }

  lemma ValueStartEnds(p: Parser, ch: Byte)
    ensures var a := ValueStart(p, ch); a.next == Fail || (a.p.state.HeaderValue? && a.note.None?)
  {}

  lemma AgreesHeadEnd(p: Parser, ch: Byte, o: Seen)
    requires Agrees(p, o)
    ensures GroupOf(p.state) == GHeadEnd ==> StaysInAgreement(p, DispatchHeadEnd(p, ch), ch, o)
    ensures GroupOf(p.state) == GDone ==> StaysInAgreement(p, Finish(p), ch, o)
  {
    GroupStates(p.state);
    FinishBetween(p);
    FinishBetween(p.(nread := 0));
    hide GroupOf, Finish, NeedsEof, LineAgrees, NameIs, ValueAgrees, SeeValue, SeeHeader;
  }

  lemma FinishBetween(p: Parser)
    ensures BetweenMessages(Finish(p).p.state) && Finish(p).note != Some(MessageBegin)
  {}

  lemma AgreesBody(p: Parser, ch: Byte, avail: nat, o: Seen)
    requires Dispatching(p) && Agrees(p, o) && avail >= 1 && GroupOf(p.state) == GBody
    ensures StaysInAgreement(p, DispatchBody(p, avail), ch, o)
  {
    GroupStates(p.state);
    hide GroupOf, LineAgrees, NameIs, ValueAgrees, SeeValue, SeeHeader, Wf;
  }

  lemma AgreesChunkDigit(p: Parser, ch: Byte, o: Seen)
    requires Dispatching(p) && Agrees(p, o) && Unhex(ch) != -1 && ch != CR
    requires p.state.ChunkSizeStart? || p.state.ChunkSize?
    ensures StaysInAgreement(p, DispatchChunk(p, ch), ch, o)
  {
    if p.state.ChunkSize? {
      ChunkSizeNeverWraps(p, ch);
      HexSnoc(o.size, ch);
      hide ChunkDigit;
    } else {
      HexSnoc([], ch);
      assert [] + [ch] == [ch];
    }
    hide HexValue, Unhex;
  }

  lemma AgreesChunk(p: Parser, ch: Byte, o: Seen)
    requires Dispatching(p) && Agrees(p, o) && GroupOf(p.state) == GChunk
    ensures StaysInAgreement(p, DispatchChunk(p, ch), ch, o)
  {
    LineStates(p.state);
    hide GroupOf, LineAgrees, NameIs, ValueAgrees, SeeValue, SeeHeader, HexValue, Unhex, NameAgrees, Wf;
    if (p.state.ChunkSizeStart? || p.state.ChunkSize?) && Unhex(ch) != -1 && ch != CR {
      AgreesChunkDigit(p, ch, o);
      hide DispatchChunk, StaysInAgreement;
    } else if p.state.ChunkSizeStart? {
      CrIsNoDigit();
    }
  }

  lemma CrIsNoDigit()
    ensures Unhex(CR) == -1
  {}

  lemma DispatchAgrees(p: Parser, ch: Byte, o: Seen)
    requires Dispatching(p) && Agrees(p, o) && BlankIfFold(p, ch)
    ensures StaysInAgreement(p, Dispatch(p, ch, 1), ch, o)
  {
    hide StaysInAgreement, Agrees, Dispatching, Quiet, DispatchStart, DispatchStartReq, DispatchMethod,
      DispatchSpacesBeforeUrl, DispatchUrl, DispatchResLine, DispatchReqLine, DispatchFieldStart, DispatchField,
      DispatchValue, DispatchHeadEnd, DispatchBody, DispatchChunk, Finish;
    match GroupOf(p.state) {
      case GStart => AgreesStart(p, ch, o);
      case GStartReq => AgreesStart(p, ch, o);
      case GMethod => QuietMethod(p, ch); QuietAgrees(p, DispatchMethod(p, ch), ch, o);
      case GSpaces => QuietSpaces(p, ch); QuietAgrees(p, DispatchSpacesBeforeUrl(p, ch), ch, o);
      case GUrl => QuietUrl(p, ch); QuietAgrees(p, DispatchUrl(p, ch), ch, o);
      case GResLine => QuietResLine(p, ch); QuietAgrees(p, DispatchResLine(p, ch), ch, o);
      case GReqLine => QuietReqLine(p, ch); QuietAgrees(p, DispatchReqLine(p, ch), ch, o);
      case GFieldStart => AgreesFieldStart(p, ch, o);
      case GField => AgreesField(p, ch, o);
      case GValue => AgreesValue(p, ch, o);
      case GHeadEnd => AgreesHeadEnd(p, ch, o);
      case GBody => AgreesBody(p, ch, 1, o);
      case GChunk => AgreesChunk(p, ch, o);
      case GDone => AgreesHeadEnd(p, ch, o);
    }
  }

  // ---------- whole runs ----------

  function SeeByte(o: Seen, p: Parser, ch: Byte): Seen
    decreases Rank(p.state)
  {
    var a := Dispatch(p, ch, 1);
    AgainLowersRank(p, ch, 1);
    if a.next == Again then SeeByte(See(o, p, a, ch), a.p, ch) else See(o, p, a, ch)
  }

  /** What the observer has seen of a stream; it stops when the parser does. */
  function Watch(kind: ParserType, data: seq<Byte>): Seen {
    if |data| == 0 then BLANK
    else
      var o := Watch(kind, data[..|data| - 1]);
      var p := Run(Start(kind), data[..|data| - 1]).p;
      if p.errno != Ok || Count(p).errno != Ok then o else SeeByte(o, Count(p), data[|data| - 1])
  }

  lemma {:induction false} SettleAgrees(o: Seen, p: Parser, ch: Byte)
    requires Dispatching(p) && Agrees(p, o) && BlankIfFold(p, ch)
    ensures Settle(p, ch).p.errno == Ok ==> Agrees(Settle(p, ch).p, SeeByte(o, p, ch))
    decreases Rank(p.state)
  {
    hide Dispatch, Agrees, Dispatching, Resting, Keeps, See, Emit;
    var a := Dispatch(p, ch, 1);
    AgainLowersRank(p, ch, 1);
    DispatchKeeps(p, ch, 1);
    KeepsMeans(a);
    DispatchAgrees(p, ch, o);
    if a.next == Again {
      SettleAgrees(See(o, p, a, ch), a.p, ch);
    }
  }

  lemma CountAgrees(p: Parser, o: Seen)
    requires Agrees(p, o)
    ensures Agrees(Count(p), o)
  {
    hide NameState, WordState, IsName, DecValue, HexValue;
  }

  /**
   On every run from a fresh parser: the recognisers' states, the flags and the length field
   say exactly what comparing the texts says.
   */
  lemma {:induction false} RecognisersAgree(kind: ParserType, data: seq<Byte>)
    ensures var p := Run(Start(kind), data).p;
            p.errno == Ok ==> Agrees(p, Watch(kind, data))
  {
    var p := Run(Start(kind), data).p;
    if |data| > 0 && p.errno == Ok {
      var d, ch := data[..|data| - 1], data[|data| - 1];
      var q := Run(Start(kind), d).p;
      hide Agrees, ByteStep, Resting, Dispatching;
      ErrorsStay(q, ch);
      RecognisersAgree(kind, d);
      InitRests(kind);
      RunKeeps(Start(kind), d);
      CountKeeps(q);
      CountAgrees(q, Watch(kind, d));
      CountState(q);
      RestingNoFold(q);
      SettleAgrees(Watch(kind, d), Count(q), ch);
      ByteIsSettle(q, ch);
    }
  }

  lemma ErrorsStay(p: Parser, ch: Byte)
    ensures ByteStep(p, ch).p.errno == Ok ==> p.errno == Ok && Count(p).errno == Ok
  {
    hide Settle, Count;
  }

  lemma ByteIsSettle(p: Parser, ch: Byte)
    requires p.errno == Ok && Count(p).errno == Ok
    ensures ByteStep(p, ch) == Settle(Count(p), ch)
  {
    hide Settle, Count;
  }

  lemma RestingNoFold(p: Parser)
    requires Resting(p)
    ensures !p.state.HeaderValueStart?
  {}
}
