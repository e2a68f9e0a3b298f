/** JSON texts as RFC 8259 derivations (sections 2 to 7), at byte level: every tree is one way to
    derive a text, and `Render` is the text it derives. Of the automaton only its types are used here:
    the terminals are the RFC's, written out. */
module JsonText {
  import opened JsonGrammars

  // ---------------------------------------------------------------- terminals

  /** Section 2: space, horizontal tab, line feed, carriage return. */
  predicate WsByte(b: Byte) { b == 0x20 || b == 0x09 || b == 0x0A || b == 0x0D }

  /** Section 6: DIGIT = %x30-39, digit1-9 = %x31-39. */
  predicate Digit(b: Byte) { 0x30 <= b <= 0x39 }

  predicate NonzeroDigit(b: Byte) { 0x31 <= b <= 0x39 }

  /** Section 7: a HEXDIG, of either case. */
  predicate HexDigit(b: Byte) { 0x30 <= b <= 0x39 || 0x41 <= b <= 0x46 || 0x61 <= b <= 0x66 }

  /** Section 7: what may follow the backslash, other than u: quotation mark, reverse solidus, solidus, b, f, n, r, t. */
  predicate EscapeByte(b: Byte) { 
    b == 0x22 || b == 0x5C || b == 0x2F || b == 0x62 || b == 0x66 || b == 0x6E || b == 0x72 || b == 0x74
  }

  /** Section 7: unescaped = %x20-21 / %x23-5B / %x5D-10FFFF. */
  predicate PlainByte(b: Byte) { 0x20 <= b <= 0x21 || 0x23 <= b <= 0x5B || 0x5D <= b }

  /** Section 3: the words true, false and null. */
  predicate IsWord(text: Bytes) {
    text == [0x74, 0x72, 0x75, 0x65] || text == [0x66, 0x61, 0x6C, 0x73, 0x65] || text == [0x6E, 0x75, 0x6C, 0x6C]
  }

  /** Section 6: e, and the signs. */
  predicate ExpMark(b: Byte) { b == 0x65 || b == 0x45 }

  predicate ExpSign(sign: Bytes) { sign == [] || sign == [0x2B] || sign == [0x2D] }

  /** A string's characters: any byte from 0x20 other than quote and backslash, or an escape. */
  datatype Char = Plain(b: Byte) | Escaped(b: Byte) | Unicode(hex: Bytes)

  datatype Exponent = NoExp | Exp(mark: Byte, sign: Bytes, digits: Bytes)

  datatype Value =
    | Word(text: Bytes)
    | Numeral(neg: bool, whole: Bytes, frac: Bytes, exp: Exponent)
    | Text(body: seq<Char>)
    | EmptyArray(ws: Bytes)
    | Array(items: Items)
    | EmptyObject(ws: Bytes)
    | Object(members: Members)

  /** ws value ws */
  datatype Element = Element(before: Bytes, value: Value, after: Bytes)
  datatype Items = LastItem(e: Element) | MoreItems(e: Element, rest: Items)
  /** ws string ws : element */
  datatype Member = Member(before: Bytes, key: seq<Char>, between: Bytes, element: Element)
  datatype Members = LastMember(m: Member) | MoreMembers(m: Member, rest: Members)

  // ---------------------------------------------------------------- the text of a derivation

  function RenderChar(c: Char): Bytes {
    match c
    case Plain(b) => [b]
    case Escaped(b) => [0x5C, b]
    case Unicode(hex) => [0x5C, 0x75] + hex
  }

  function RenderChars(body: seq<Char>): Bytes {
    if body == [] then [] else RenderChar(body[0]) + RenderChars(body[1..])
  }

  function RenderExp(e: Exponent): Bytes {
    match e
    case NoExp => []
    case Exp(mark, sign, digits) => [mark] + sign + digits
  }

  function RenderFrac(frac: Bytes): Bytes {
    if frac == [] then [] else [0x2E] + frac
  }

  function Quoted(body: seq<Char>): Bytes {
    [0x22] + RenderChars(body) + [0x22]
  }

  function Render(v: Value): Bytes {
    match v
    case Word(text) => text
    case Numeral(neg, whole, frac, exp) => (if neg then [0x2D] else []) + whole + RenderFrac(frac) + RenderExp(exp)
    case Text(body) => Quoted(body)
    case EmptyArray(ws) => [0x5B] + ws + [0x5D]
    case Array(items) => [0x5B] + RenderItems(items) + [0x5D]
    case EmptyObject(ws) => [0x7B] + ws + [0x7D]
    case Object(members) => [0x7B] + RenderMembers(members) + [0x7D]
  }

  function RenderElement(e: Element): Bytes {
    e.before + Render(e.value) + e.after
  }

  function RenderItems(items: Items): Bytes {
    match items
    case LastItem(e) => RenderElement(e)
    case MoreItems(e, rest) => RenderElement(e) + [0x2C] + RenderItems(rest)
  }

  function RenderMember(m: Member): Bytes {
    m.before + Quoted(m.key) + m.between + [0x3A] + RenderElement(m.element)
  }

  function RenderMembers(ms: Members): Bytes {
    match ms
    case LastMember(m) => RenderMember(m)
    case MoreMembers(m, rest) => RenderMember(m) + [0x2C] + RenderMembers(rest)
  }

  // ---------------------------------------------------------------- which derivations the grammar has

  /** Insignificant whitespace; none of it when `spaces` is off. */
  predicate Ws(ws: Bytes, spaces: bool) {
    (forall i :: 0 <= i < |ws| ==> WsByte(ws[i])) && (!spaces ==> ws == [])
  }

  predicate Digits(ds: Bytes) {
    forall i :: 0 <= i < |ds| ==> Digit(ds[i])
  }

  predicate CharOk(c: Char) {
    match c
    case Plain(b) => PlainByte(b)
    case Escaped(b) => EscapeByte(b)
    case Unicode(hex) => |hex| == 4 && forall i :: 0 <= i < 4 ==> HexDigit(hex[i])
  }

  predicate BodyOk(body: seq<Char>) {
    forall i :: 0 <= i < |body| ==> CharOk(body[i])
  }

  predicate ExpOk(e: Exponent) {
    e.Exp? ==> ExpMark(e.mark) && ExpSign(e.sign) && e.digits != [] && Digits(e.digits)
  }

  predicate WholeOk(whole: Bytes) {
    whole == [0x30] || (whole != [] && NonzeroDigit(whole[0]) && Digits(whole[1..]))
  }

  predicate ValueOk(v: Value, spaces: bool) {
    match v
    case Word(text) => IsWord(text)
    case Numeral(neg, whole, frac, exp) => WholeOk(whole) && Digits(frac) && ExpOk(exp)
    case Text(body) => BodyOk(body)
    case EmptyArray(ws) => Ws(ws, spaces)
    case Array(items) => ItemsOk(items, spaces)
    case EmptyObject(ws) => Ws(ws, spaces)
    case Object(members) => MembersOk(members, spaces)
  }

  predicate ElementOk(e: Element, spaces: bool) {
    Ws(e.before, spaces) && ValueOk(e.value, spaces) && Ws(e.after, spaces)
  }

  predicate ItemsOk(items: Items, spaces: bool) {
    match items
    case LastItem(e) => ElementOk(e, spaces)
    case MoreItems(e, rest) => ElementOk(e, spaces) && ItemsOk(rest, spaces)
  }

  predicate MemberOk(m: Member, spaces: bool) {
    Ws(m.before, spaces) && BodyOk(m.key) && Ws(m.between, spaces) && ElementOk(m.element, spaces)
  }

  predicate MembersOk(ms: Members, spaces: bool) {
    match ms
    case LastMember(m) => MemberOk(m, spaces)
    case MoreMembers(m, rest) => MemberOk(m, spaces) && MembersOk(rest, spaces)
  }

  // ---------------------------------------------------------------- schemas

  predicate HasType(v: Value, t: Type) {
    match t
    case Free => true
    case StringType => v.Text?
    case NumberType => v.Numeral?
    case IntegerType => v.Numeral? && v.frac == [] && v.exp == NoExp
    case BooleanType => v == Word([0x74, 0x72, 0x75, 0x65]) || v == Word([0x66, 0x61, 0x6C, 0x73, 0x65])
  }

  predicate Unescaped(body: seq<Char>) {
    forall i :: 0 <= i < |body| ==> body[i].Plain?
  }

  predicate MemberIs(m: Member, key: Bytes, t: Type) {
    Unescaped(m.key) && RenderChars(m.key) == key && HasType(m.element.value, t)
  }

  /** The members are exactly the declared ones, in order, unescaped, each of its type. */
  predicate Declared(ms: Members, keys: seq<Bytes>, types: seq<Type>)
    requires |keys| == |types|
  {
    match ms
    case LastMember(m) => |keys| == 1 && MemberIs(m, keys[0], types[0])
    case MoreMembers(m, rest) => 1 < |keys| && MemberIs(m, keys[0], types[0]) && Declared(rest, keys[1..], types[1..])
  }

  predicate Conforms(v: Value, root: Schema)
    requires |root.keys| == |root.types|
  {
    match v
    case Object(members) => Declared(members, root.keys, root.types)
    case EmptyObject(_) => root.keys == []
    case _ => false
  }

  /** `s` is a JSON text; under a schema, one that conforms to it. */
  ghost predicate InLanguage(s: Bytes, spaces: bool, schema: bool, root: Schema)
    requires |root.keys| == |root.types|
  {
    exists e: Element :: ElementOk(e, spaces) && (schema ==> Conforms(e.value, root)) && RenderElement(e) == s
  }
}
