/**
 The vocabulary of the HTTP/1.x parser: bytes, character classes, parser fields,
 and the callbacks it makes. Strict mode is modelled throughout.
 */
module HttpTypes {

  // ---------- bytes and character classes ----------

  type Byte = x: int | 0 <= x < 256

  const HT: Byte := 9
  const LF: Byte := 10
  const FF: Byte := 12
  const CR: Byte := 13
  const SP: Byte := 32

  /** LOWER: sets bit 0x20, on every byte and not just on letters. */
  function Lower(c: Byte): Byte {
    if c % 64 < 32 then c + 32 else c
  }

  predicate IsAlpha(c: Byte) { 65 <= c <= 90 || 97 <= c <= 122 }

  predicate IsNum(c: Byte) { 48 <= c <= 57 }

  predicate IsHex(c: Byte) { IsNum(c) || 65 <= c <= 70 || 97 <= c <= 102 }

  predicate IsUserinfoChar(c: Byte) {
    || IsAlpha(c) || IsNum(c)
    || c == 45 || c == 95 || c == 46 || c == 33 || c == 126    // - _ . ! ~
    || c == 42 || c == 39 || c == 40 || c == 41                // * ' ( )
    || c == 37 || c == 59 || c == 58 || c == 38                // % ; : &
    || c == 61 || c == 43 || c == 36 || c == 44                // = + $ ,
  }

  predicate IsHostChar(c: Byte) { IsAlpha(c) || IsNum(c) || c == 46 || c == 45 }

  /** The bitmap of bytes allowed in a path: printable ASCII without space, '#' and '?'. */
  predicate IsUrlChar(c: Byte) { c == 33 || c == 34 || 36 <= c <= 62 || 64 <= c <= 126 }

  /** The token table: 0 for a byte that is not a token character, its lower case otherwise. */
  function Token(c: Byte): Byte {
    if 65 <= c <= 90 then c + 32
    else if IsNum(c) || 94 <= c <= 122 || c == 33 || 35 <= c <= 39 || c == 42 || c == 43
            || c == 45 || c == 46 || c == 124 || c == 126 then c
    else 0
  }

  /**
   The hexadecimal table. It has 256 entries but only 128 initialisers, so every byte
   from 128 up reads as the digit 0; -1 means "not a digit".
   */
  function Unhex(c: Byte): int {
    if IsNum(c) then c - 48
    else if 65 <= c <= 70 then c - 55
    else if 97 <= c <= 102 then c - 87
    else if c >= 128 then 0
    else -1
  }

  // ---------- 64-bit lengths ----------

  const ULLONG_MAX: nat := 0xFFFF_FFFF_FFFF_FFFF
  const TWO_64: nat := 0x1_0000_0000_0000_0000
  const MAX_HEADER_SIZE: nat := 81920

  // ---------- parser fields ----------

  datatype ParserType = Request | Response | Both

  datatype Method =
    | DELETE | GET | HEAD | POST | PUT | CONNECT | OPTIONS | TRACE
    | COPY | LOCK | MKCOL | MOVE | PROPFIND | PROPPATCH | SEARCH | UNLOCK
    | REPORT | MKACTIVITY | CHECKOUT | MERGE | MSEARCH | NOTIFY
    | SUBSCRIBE | UNSUBSCRIBE | PATCH | PURGE | MKCALENDAR

  datatype State =
    | Dead
    | StartReqOrRes | ResOrRespH | StartRes | ResH | ResHT | ResHTT | ResHTTP
    | ResFirstHttpMajor | ResHttpMajor | ResFirstHttpMinor | ResHttpMinor
    | ResFirstStatusCode | ResStatusCode | ResStatusStart | ResStatus | ResLineAlmostDone
    | StartReq | ReqMethod | ReqSpacesBeforeUrl
    | ReqSchema | ReqSchemaSlash | ReqSchemaSlashSlash
    | ReqServerStart | ReqServer | ReqServerWithAt | ReqPath
    | ReqQueryStringStart | ReqQueryString | ReqFragmentStart | ReqFragment
    | ReqHttpStart | ReqHttpH | ReqHttpHT | ReqHttpHTT | ReqHttpHTTP
    | ReqFirstHttpMajor | ReqHttpMajor | ReqFirstHttpMinor | ReqHttpMinor | ReqLineAlmostDone
    | HeaderFieldStart | HeaderField
    | HeaderValueDiscardWs | HeaderValueDiscardWsAlmostDone | HeaderValueDiscardLws
    | HeaderValueStart | HeaderValue | HeaderValueLws | HeaderAlmostDone
    | ChunkSizeStart | ChunkSize | ChunkParameters | ChunkSizeAlmostDone
    | HeadersAlmostDone | HeadersDone
    | ChunkData | ChunkDataAlmostDone | ChunkDataDone
    | BodyIdentity | BodyIdentityEof | MessageDone

  datatype HeaderState =
    | HGeneral | HC | HCO | HCON
    | HMatchingConnection | HMatchingProxyConnection | HMatchingContentLength
    | HMatchingTransferEncoding | HMatchingUpgrade
    | HConnection | HContentLength | HTransferEncoding | HUpgrade
    | HMatchingChunked | HMatchingKeepAlive | HMatchingClose
    | HChunked | HKeepAlive | HClose

  datatype Errno =
    | Ok | InvalidEofState | HeaderOverflow | ClosedConnection | InvalidVersion | InvalidStatus
    | InvalidMethod | InvalidUrl | LfExpected | InvalidHeaderToken | InvalidContentLength
    | InvalidChunkSize | InvalidConstant | Strict

  datatype Flags = Flags(chunked: bool, keepAlive: bool, close: bool, trailing: bool, upgrade: bool, skipBody: bool)

  const NO_FLAGS := Flags(false, false, false, false, false, false)

  datatype Parser = Parser(
    kind: ParserType,
    flags: Flags,
    state: State,
    headerState: HeaderState,
    index: nat,
    nread: nat,
    contentLength: nat,
    httpMajor: nat,
    httpMinor: nat,
    statusCode: nat,
    verb: Method,
    errno: Errno,
    upgrade: bool)

  /** http_parser_init. */
  function Init(kind: ParserType): Parser {
    Parser(kind, NO_FLAGS,
           match kind { case Request => StartReq case Response => StartRes case Both => StartReqOrRes },
           HGeneral, 0, 0, 0, 0, 0, 0, DELETE, Ok, false)
  }

  // ---------- callbacks ----------

  /** The five data callbacks, one per mark of the parser. */
  datatype Kind = UrlData | StatusData | FieldData | ValueData | BodyData

  /** One callback. The notifications carry the parser fields the callback can read. */
  datatype Event =
    | MessageBegin
    | HeadersComplete(parser: Parser)
    | MessageComplete(parser: Parser)
    | Data(kind: Kind, bytes: seq<Byte>)

  // ---------- words the recognisers look for ----------

  const W_CONNECTION: seq<Byte> := [99, 111, 110, 110, 101, 99, 116, 105, 111, 110]
  const W_PROXY_CONNECTION: seq<Byte> := [112, 114, 111, 120, 121, 45, 99, 111, 110, 110, 101, 99, 116, 105, 111, 110]
  const W_CONTENT_LENGTH: seq<Byte> := [99, 111, 110, 116, 101, 110, 116, 45, 108, 101, 110, 103, 116, 104]
  const W_TRANSFER_ENCODING: seq<Byte> := [116, 114, 97, 110, 115, 102, 101, 114, 45, 101, 110, 99, 111, 100, 105, 110, 103]
  const W_UPGRADE: seq<Byte> := [117, 112, 103, 114, 97, 100, 101]
  const W_CHUNKED: seq<Byte> := [99, 104, 117, 110, 107, 101, 100]
  const W_KEEP_ALIVE: seq<Byte> := [107, 101, 101, 112, 45, 97, 108, 105, 118, 101]
  const W_CLOSE: seq<Byte> := [99, 108, 111, 115, 101]

  /** A C string read: past its last character the terminating NUL. */
  function At(word: seq<Byte>, i: nat): Byte {
    if i < |word| then word[i] else 0
  }

  function MethodString(m: Method): (s: seq<Byte>)
    ensures 3 <= |s| <= 11
    ensures forall i :: 0 <= i < |s| ==> 45 <= s[i] <= 90
  {
    match m
    case DELETE => [68, 69, 76, 69, 84, 69]
    case GET => [71, 69, 84]
    case HEAD => [72, 69, 65, 68]
    case POST => [80, 79, 83, 84]
    case PUT => [80, 85, 84]
    case CONNECT => [67, 79, 78, 78, 69, 67, 84]
    case OPTIONS => [79, 80, 84, 73, 79, 78, 83]
    case TRACE => [84, 82, 65, 67, 69]
    case COPY => [67, 79, 80, 89]
    case LOCK => [76, 79, 67, 75]
    case MKCOL => [77, 75, 67, 79, 76]
    case MOVE => [77, 79, 86, 69]
    case PROPFIND => [80, 82, 79, 80, 70, 73, 78, 68]
    case PROPPATCH => [80, 82, 79, 80, 80, 65, 84, 67, 72]
    case SEARCH => [83, 69, 65, 82, 67, 72]
    case UNLOCK => [85, 78, 76, 79, 67, 75]
    case REPORT => [82, 69, 80, 79, 82, 84]
    case MKACTIVITY => [77, 75, 65, 67, 84, 73, 86, 73, 84, 89]
    case CHECKOUT => [67, 72, 69, 67, 75, 79, 85, 84]
    case MERGE => [77, 69, 82, 71, 69]
    case MSEARCH => [77, 45, 83, 69, 65, 82, 67, 72]
    case NOTIFY => [78, 79, 84, 73, 70, 89]
    case SUBSCRIBE => [83, 85, 66, 83, 67, 82, 73, 66, 69]
    case UNSUBSCRIBE => [85, 78, 83, 85, 66, 83, 67, 82, 73, 66, 69]
    case PATCH => [80, 65, 84, 67, 72]
    case PURGE => [80, 85, 82, 71, 69]
    case MKCALENDAR => [77, 75, 67, 65, 76, 69, 78, 68, 65, 82]
  }
}
