/** The method recogniser accepts exactly the listed methods. */
module HttpMethods {
  import opened Options
  import opened HttpTypes
  import opened HttpDispatch
  import opened HttpMachine
  import opened HttpSteps

  /** The bytes read are the first letters of the current candidate. */
  predicate HasPrefix(m: Method, text: seq<Byte>) { text <= MethodString(m) }

  /** Two methods that share their first `k` letters, the second going on with `ch`. */
  predicate Branches(m: Method, n: Method, k: nat, ch: Byte) {
    var s, t := MethodString(m), MethodString(n);
    k < |s| && k < |t| && t[k] == ch && forall i :: 0 <= i < k ==> s[i] == t[i]
  }

  lemma BranchesOfMkcol()
    ensures Branches(MKCOL, MOVE, 1, 79) && Branches(MKCOL, MERGE, 1, 69) && Branches(MKCOL, MSEARCH, 1, 45)
    ensures Branches(MKCOL, MKACTIVITY, 2, 65) && Branches(MKCOL, MKCALENDAR, 3, 65)
  {}

  lemma BranchesOfOthers()
    ensures Branches(CONNECT, CHECKOUT, 1, 72) && Branches(CONNECT, COPY, 2, 80) && Branches(SUBSCRIBE, SEARCH, 1, 69)
    ensures Branches(POST, PROPFIND, 1, 82) && Branches(POST, PUT, 1, 85) && Branches(POST, PATCH, 1, 65)
  {}

  lemma BranchesOfLast()
    ensures Branches(PUT, PURGE, 2, 82) && Branches(UNLOCK, UNSUBSCRIBE, 2, 83) && Branches(PROPFIND, PROPPATCH, 4, 80)
  {}

  lemma SwitchBranches(m: Method, k: nat, ch: Byte)
    ensures SwitchMethod(m, k, ch).Some? ==> Branches(m, SwitchMethod(m, k, ch).value, k, ch)
  {
    BranchesOfMkcol();
    BranchesOfOthers();
    BranchesOfLast();
    hide Branches;
  }

  lemma SwitchKeepsPrefix(m: Method, text: seq<Byte>, ch: Byte)
    requires HasPrefix(m, text) && SwitchMethod(m, |text|, ch).Some?
    ensures HasPrefix(SwitchMethod(m, |text|, ch).value, text + [ch])
  {
    SwitchBranches(m, |text|, ch);
    hide SwitchMethod, MethodString;
    forall i | 0 <= i < |text| ensures text[i] == MethodString(SwitchMethod(m, |text|, ch).value)[i] {
      assert text[i] == MethodString(m)[i];
    }
  }

  lemma MethodStep(p: Parser, text: seq<Byte>, ch: Byte)
    requires p.index == |text| && HasPrefix(p.verb, text) && ch != SP
    ensures var a := DispatchMethod(p, ch);
            (a.next == Fail && a.p.errno != Ok) ||
            (a == Go(p.(verb := a.p.verb, index := |text| + 1)) && HasPrefix(a.p.verb, text + [ch]))
  {
    hide MethodString, SwitchMethod;
    if SwitchMethod(p.verb, |text|, ch).Some? {
      SwitchKeepsPrefix(p.verb, text, ch);
    }
  }

  // ---------- every listed method gets through ----------

  /** The candidate held after the first `k` letters of `m`. */
  function Held(m: Method, k: nat): Method {
    match m
    case CHECKOUT => if k <= 1 then CONNECT else m
    case COPY => if k <= 2 then CONNECT else m
    case MOVE => if k <= 1 then MKCOL else m
    case MERGE => if k <= 1 then MKCOL else m
    case MSEARCH => if k <= 1 then MKCOL else m
    case MKACTIVITY => if k <= 2 then MKCOL else m
    case MKCALENDAR => if k <= 3 then MKCOL else m
    case SEARCH => if k <= 1 then SUBSCRIBE else m
    case PROPFIND => if k <= 1 then POST else m
    case PROPPATCH => if k <= 1 then POST else if k <= 4 then PROPFIND else m
    case PUT => if k <= 1 then POST else m
    case PURGE => if k <= 1 then POST else if k == 2 then PUT else m
    case PATCH => if k <= 1 then POST else m
    case UNSUBSCRIBE => if k <= 2 then UNLOCK else m
    case _ => m
  }

  lemma HeldFirst(m: Method)
    ensures IsAlpha(MethodString(m)[0]) && FirstLetter(MethodString(m)[0]) == Some(Held(m, 1))
  {}

  predicate Advances(m: Method, k: nat)
    requires k < |MethodString(m)|
  {
    var h, c := Held(m, k), MethodString(m)[k];
    if At(MethodString(h), k) == c then Held(m, k + 1) == h else SwitchMethod(h, k, c) == Some(Held(m, k + 1))
  }

  lemma HeldStep(m: Method, k: nat)
    requires 1 <= k < |MethodString(m)|
    ensures Advances(m, k)
  {
    match m {
      case CHECKOUT => case COPY => case MOVE => case MERGE => case MSEARCH => case MKACTIVITY => case MKCALENDAR =>
      case SEARCH => case PROPFIND => case PROPPATCH => case PUT => case PURGE => case PATCH => case UNSUBSCRIBE =>
      case _ =>
    }
  }

  // ---------- runs ----------

  /** The state of a request parser after the letters `text` of a method. */
  function AfterLetters(p: Parser, m: Method, text: seq<Byte>): Parser {
    Fresh(p).(state := ReqMethod, verb := m, index := |text|, nread := p.nread + |text|)
  }

  lemma MethodByte(p: Parser, ch: Byte)
    requires Ready(p) && p.state.ReqMethod?
    ensures ByteStep(p, ch) == Snapshot(DispatchMethod(Counted(p), ch).p, [])
  {
    hide Dispatch, SwitchMethod, MethodString, ByteStep;
    ByteOnce(p, ch);
  }

  lemma FirstByte(p: Parser, ch: Byte)
    requires Ready(p) && p.state.StartReq? && ch != CR && ch != LF
    ensures var r := ByteStep(p, ch);
            match FirstLetter(ch)
            case None => r.p.errno != Ok
            case Some(m) => r == Snapshot(AfterLetters(p, m, [ch]), [MessageBegin])
  {
    hide Dispatch, ByteStep;
    ByteOnce(p, ch);
  }

  lemma {:induction false} RequestLetters(p: Parser, text: seq<Byte>)
    requires Ready(p) && p.state.StartReq?
    requires |text| > 0 && text[0] != CR && text[0] != LF && SP !in text
    ensures var r := Run(Snapshot(p, []), text);
            r.p.errno == Ok ==>
              && r.p == AfterLetters(p, r.p.verb, text) && r.out == [MessageBegin]
              && HasPrefix(r.p.verb, text)
  {
    hide ByteStep, MethodString, FirstLetter, SwitchMethod, DispatchMethod;
    var d, ch := text[..|text| - 1], text[|text| - 1];
    var q := Run(Snapshot(p, []), d).p;
    if |d| == 0 {
      assert text == [ch];
      FirstByte(p, ch);
      FirstLetterIsPrefix(ch);
      assert [] + [MessageBegin] == [MessageBegin];
    } else {
      assert d[0] == text[0];
      RequestLetters(p, d);
      if q.errno == Ok {
        if q.nread < MAX_HEADER_SIZE {
          MethodByte(q, ch);
          assert ch in text;
          MethodStep(Counted(q), d, ch);
          assert d + [ch] == text;
          assert [MessageBegin] + [] == [MessageBegin];
        } else {
          Overflows(q, ch);
        }
      } else {
        ErrorSticks(q, ch);
      }
    }
  }

  lemma FirstLetterIsPrefix(ch: Byte)
    ensures FirstLetter(ch).Some? ==> HasPrefix(FirstLetter(ch).value, [ch])
  {}

  /** Completeness: every listed method is read to its end. */
  lemma {:induction false} ListedMethodRead(p: Parser, m: Method, k: nat)
    requires Ready(p) && p.state.StartReq?
    requires 1 <= k <= |MethodString(m)| && p.nread + k <= MAX_HEADER_SIZE
    ensures Run(Snapshot(p, []), MethodString(m)[..k])
              == Snapshot(AfterLetters(p, Held(m, k), MethodString(m)[..k]), [MessageBegin])
  {
    hide ByteStep, MethodString, FirstLetter, Held, SwitchMethod;
    var s := MethodString(m);
    if k == 1 {
      HeldFirst(m);
      assert s[..1] == [s[0]];
      assert s[..1][..0] == [];
      FirstByte(p, s[0]);
      assert [] + [MessageBegin] == [MessageBegin];
    } else {
      ListedMethodRead(p, m, k - 1);
      HeldStep(m, k - 1);
      assert s[..k][..k - 1] == s[..k - 1];
      var q := AfterLetters(p, Held(m, k - 1), s[..k - 1]);
      MethodByte(q, s[k - 1]);
      assert [MessageBegin] + [] == [MessageBegin];
    }
  }

  lemma RequestAccepted(p: Parser, text: seq<Byte>)
    requires Ready(p) && p.state.StartReq? && p.nread + |text| < MAX_HEADER_SIZE
    requires |text| > 0 && text[0] != CR && text[0] != LF && SP !in text
    ensures var r := Run(Snapshot(p, []), text + [SP]);
            && (r.p.errno == Ok <==> exists m :: text == MethodString(m))
            && (r.p.errno == Ok ==>
                  && text == MethodString(r.p.verb)
                  && r == Snapshot(AfterLetters(p, r.p.verb, text + [SP]).(state := ReqSpacesBeforeUrl), [MessageBegin]))
  {
    hide ByteStep, MethodString, SwitchMethod, Run, DispatchMethod;
    var r := Run(Snapshot(p, []), text);
    RequestLetters(p, text);
    RunConcat(Snapshot(p, []), text, [SP]);
    RunOne(r, SP);
    if r.p.errno == Ok {
      MethodByte(r.p, SP);
      WholeMethod(Counted(r.p), text);
    } else {
      ErrorSticks(r.p, SP);
    }
    if m :| text == MethodString(m) {
      ListedMethodRead(p, m, |text|);
      assert text[..|text|] == text;
      HeldAll(m);
    }
    assert [MessageBegin] + [] == [MessageBegin];
  }

  lemma HeldAll(m: Method)
    ensures Held(m, |MethodString(m)|) == m
  {}

  lemma WholeMethod(p: Parser, text: seq<Byte>)
    requires p.state.ReqMethod? && p.index == |text| && HasPrefix(p.verb, text)
    ensures var a := DispatchMethod(p, SP);
            if text == MethodString(p.verb) then a == Go(p.(state := ReqSpacesBeforeUrl, index := |text| + 1))
            else a.next == Fail && a.p.errno != Ok
  {
    NoBlankSwitch(p.verb, p.index);
    hide SwitchMethod, MethodString;
  }

  lemma NoBlankSwitch(m: Method, k: nat)
    ensures SwitchMethod(m, k, SP).None?
  {}

  // ---------- parsers that take requests and responses ----------

  predicate AtStart(s: State) { s.StartReq? || s.StartReqOrRes? }

  /** The parser that takes requests only, in place of one that takes both. */
  function AsRequest(p: Parser): Parser { if p.state.StartReqOrRes? then p.(kind := Request, state := StartReq) else p }

  /** Bytes that a parser of both kinds may still take, or has taken, for the start of a response. */
  predicate MaybeResponse(p: Parser, text: seq<Byte>) {
    p.state.StartReqOrRes? && |text| > 0 && text[0] == 72 && (|text| == 1 || text[1] == 84)
  }

  lemma NotH(p: Parser, ch: Byte)
    requires Ready(p) && p.state.StartReqOrRes? && ch != CR && ch != LF && ch != 72
    ensures ByteStep(p, ch) == ByteStep(AsRequest(p), ch)
  {
    hide Dispatch, ByteStep, Settle, FirstLetter;
    var q := Fresh(Counted(p)).(kind := Request, state := StartReq);
    ByteOnce(p, ch);
    ByteOnce(AsRequest(p), ch);
    DispatchOfStart(Counted(p), ch);
    DispatchOfStart(q, ch);
    SettleStep(q, ch, Dispatch(q, ch, 1));
    assert DispatchStartReq(q, ch) == DispatchStartReq(Counted(AsRequest(p)), ch);
    assert [] + Settle(q, ch).out == Settle(q, ch).out;
  }

  lemma FirstH(p: Parser)
    requires Ready(p) && p.state.StartReqOrRes?
    ensures ByteStep(p, 72) == Snapshot(Counted(Fresh(p)).(state := ResOrRespH), [MessageBegin])
  {
    hide Dispatch, ByteStep, Settle;
    ByteOnce(p, 72);
    DispatchOfStart(Counted(p), 72);
  }

  lemma SecondByte(q: Parser, ch: Byte)
    requires Ready(q) && q.state.ResOrRespH? && ch != 84
    ensures if ch == 69 then
              ByteStep(q, ch) == Snapshot(Counted(q).(kind := Request, verb := HEAD, index := 2, state := ReqMethod), [])
            else ByteStep(q, ch).p.errno != Ok
  {
    hide Dispatch, ByteStep, Settle;
    ByteOnce(q, ch);
    DispatchOfStart(Counted(q), ch);
  }

  lemma SecondOfHead(q: Parser, ch: Byte)
    requires Ready(q) && q.state.ReqMethod? && q.verb == HEAD && q.index == 1 && ch != SP
    ensures if ch == 69 then ByteStep(q, ch) == Snapshot(Counted(q).(index := 2), []) else ByteStep(q, ch).p.errno != Ok
  {
    MethodByte(q, ch);
    hide ByteStep;
  }

  lemma OneByte(p: Parser, ch: Byte, q: Parser)
    requires ByteStep(p, ch) == Snapshot(q, [MessageBegin])
    ensures Run(Snapshot(p, []), [ch]) == Snapshot(q, [MessageBegin])
  {
    hide ByteStep, Run;
    RunOne(Snapshot(p, []), ch);
    assert [] + [MessageBegin] == [MessageBegin];
  }

  lemma SecondSame(q: Parser, r: Parser, ch: Byte)
    requires q.errno == Ok && q.state.ResOrRespH? && ch != SP && ch != 84
    requires r == q.(kind := Request, verb := HEAD, index := 1, state := ReqMethod)
    ensures SameOrBothFail(Run(Snapshot(q, [MessageBegin]), [ch]), Run(Snapshot(r, [MessageBegin]), [ch]))
  {
    hide ByteStep, Run;
    RunOne(Snapshot(q, [MessageBegin]), ch);
    RunOne(Snapshot(r, [MessageBegin]), ch);
    if q.nread < MAX_HEADER_SIZE {
      SecondByte(q, ch);
      SecondOfHead(r, ch);
    } else {
      Overflows(q, ch);
      Overflows(r, ch);
    }
  }

  /** The first two bytes, when the first is H. */
  lemma AfterH(p: Parser, ch: Byte)
    requires Ready(p) && p.state.StartReqOrRes? && ch != SP && ch != 84
    ensures SameOrBothFail(Run(Snapshot(p, []), [72, ch]), Run(Snapshot(AsRequest(p), []), [72, ch]))
  {
    hide ByteStep, Run, SameOrBothFail;
    var q, r := Counted(Fresh(p)).(state := ResOrRespH), AfterLetters(AsRequest(p), HEAD, [72]);
    assert [72, ch] == [72] + [ch];
    RunConcat(Snapshot(p, []), [72], [ch]);
    RunConcat(Snapshot(AsRequest(p), []), [72], [ch]);
    FirstH(p);
    FirstByte(AsRequest(p), 72);
    OneByte(p, 72, q);
    OneByte(AsRequest(p), 72, r);
    SecondSame(q, r, ch);
  }

  predicate SameOrBothFail(a: Snapshot, b: Snapshot) { a == b || (a.p.errno != Ok && b.p.errno != Ok) }

  lemma SameGoesOn(a: Snapshot, b: Snapshot, d: seq<Byte>)
    requires SameOrBothFail(a, b)
    ensures SameOrBothFail(Run(a, d), Run(b, d))
  {
    hide Run;
    if a.p.errno != Ok && b.p.errno != Ok {
      RunStuck(a, d);
      RunStuck(b, d);
    }
  }

  /** On a request, a parser of both kinds does what one for requests does. */
  lemma BothIsRequest(p: Parser, text: seq<Byte>, more: seq<Byte>)
    requires Ready(p) && AtStart(p.state) && !MaybeResponse(p, text)
    requires |text| > 0 && text[0] != CR && text[0] != LF && SP !in text
    ensures SameOrBothFail(Run(Snapshot(p, []), text + more), Run(Snapshot(AsRequest(p), []), text + more))
  {
    hide ByteStep, Run, SameOrBothFail;
    var s, t := Snapshot(p, []), Snapshot(AsRequest(p), []);
    if p.state.StartReq? {
      assert SameOrBothFail(Run(s, text + more), Run(t, text + more)) by { SameAlready(Run(s, text + more)); }
      return;
    }
    var k := if text[0] == 72 then 2 else 1;
    var head, rest := text[..k], text[k..] + more;
    assert text + more == head + rest;
    if k == 1 {
      assert head == [text[0]];
      NotH(p, text[0]);
      RunOne(s, text[0]);
      RunOne(t, text[0]);
      SameAlready(Run(s, head));
    } else {
      assert head == [72, text[1]];
      assert text[1] in text;
      AfterH(p, text[1]);
    }
    RunConcat(s, head, rest);
    RunConcat(t, head, rest);
    SameGoesOn(Run(s, head), Run(t, head), rest);
  }

  lemma SameAlready(s: Snapshot)
    ensures SameOrBothFail(s, s)
  {}

  /**
   Soundness: whatever bytes other than a blank follow the start of a message, unless they begin a
   response, as long as there is no error they are the first letters of a listed method, the one
   now held.
   */
  lemma OnlyMethodLetters(p: Parser, text: seq<Byte>)
    requires Ready(p) && AtStart(p.state)
    requires |text| > 0 && text[0] != CR && text[0] != LF && SP !in text
    ensures var r := Run(Snapshot(p, []), text);
            r.p.errno == Ok && !MaybeResponse(p, text) ==>
              && r.p == AfterLetters(AsRequest(p), r.p.verb, text) && r.out == [MessageBegin]
              && HasPrefix(r.p.verb, text)
  {
    hide Run, MethodString;
    if !MaybeResponse(p, text) {
      BothIsRequest(p, text, []);
      assert text + [] == text;
      RequestLetters(AsRequest(p), text);
    }
  }

  /** No listed method looks like the start of a response. */
  lemma MethodsAreNoResponses(m: Method)
    ensures var s := MethodString(m); s[0] == 72 ==> |s| > 1 && s[1] != 84
  {}

  /** A blank ends the method exactly when the letters before it are a whole listed method, not of a response. */
  lemma MethodAccepted(p: Parser, text: seq<Byte>)
    requires Ready(p) && AtStart(p.state) && p.nread + |text| < MAX_HEADER_SIZE
    requires |text| > 0 && text[0] != CR && text[0] != LF && SP !in text
    ensures var r := Run(Snapshot(p, []), text + [SP]);
            && (r.p.errno == Ok && !MaybeResponse(p, text) <==> exists m :: text == MethodString(m))
            && (r.p.errno == Ok && !MaybeResponse(p, text) ==>
                  && text == MethodString(r.p.verb)
                  && r == Snapshot(AfterLetters(AsRequest(p), r.p.verb, text + [SP]).(state := ReqSpacesBeforeUrl),
                        [MessageBegin]))
  {
    hide Run, MethodString;
    if m :| text == MethodString(m) {
      MethodsAreNoResponses(m);
    }
    if !MaybeResponse(p, text) {
      BothIsRequest(p, text, [SP]);
      RequestAccepted(AsRequest(p), text);
    }
  }
}
