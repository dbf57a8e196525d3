/** Addresses of messages and endpoints, and the test by which an endpoint decides whether a message is for it. */
module Routing {
  import opened Base

  /** The routing fields of a message. */
  datatype Header = Header(srcsid: nat, srceid: nat, dstsid: nat, dsteid: nat, canloop: bool)

  /** The system and endpoint identifiers of an endpoint. */
  datatype Address = Address(sid: nat, eid: nat)

  /** As a destination system: any system. As a destination endpoint: any endpoint. */
  const ANY: nat := 0

  /** As a destination system: the system the message is sent in. */
  const LOCAL: nat := 1

  /** Does `give` of an endpoint at `a`, on a net whose own identifier is `sid`, consider a message with header `h`? */
  predicate Accepts(sid: nat, a: Address, h: Header) {
    if !h.canloop && h.srceid == a.eid && h.srcsid == a.sid then false
    else if h.dstsid != ANY && h.dstsid != LOCAL && h.dstsid != a.sid then false
    else if h.dstsid == LOCAL && a.sid != sid then false
    else !(h.dsteid != ANY && h.dsteid != a.eid)
  }
}
