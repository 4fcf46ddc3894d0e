/**
 * The parts of a DNS message, as the resolver library presents them, that
 * the relay reads, sets or resets. The wire encoding itself belongs to the
 * library and is not modelled: messages are values.
 */
module Dns {

  newtype uint16 = x: int | 0 <= x < 0x1_0000

  /** One entry of the question section: a name and the record type and class asked for. */
  datatype Question = Question(name: string, qtype: uint16, qclass: uint16)

  /** A resource record of the answer, authority or additional section. */
  datatype RR = RR(name: string, rrtype: uint16, rdata: string)

  /**
   * A DNS message. The header fields listed are the ones the relay sets, or
   * resets when it rebuilds a query, together with the reply flag; `opcode`
   * is the library's integer field (0 is QUERY), and `compress` is the
   * library's switch for name compression on encoding.
   */
  datatype Msg = Msg(
    id: uint16,
    opcode: int,
    checkingDisabled: bool,
    response: bool,
    authoritative: bool,
    recursionDesired: bool,
    compress: bool,
    question: seq<Question>,
    answer: seq<RR>,
    ns: seq<RR>,
    extra: seq<RR>)

  /** The message `new(dns.Msg)` allocates: every field at its zero value. */
  const EmptyMsg: Msg := Msg(0, 0, false, false, false, false, false, [], [], [], [])
}
