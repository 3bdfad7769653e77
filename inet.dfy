/**
 * Host/network byte-order conversions of the POSIX <arpa/inet.h> interface
 * (src/bsd/inet.c). Network order is big-endian; this implementation swaps
 * unconditionally, so it is correct exactly on a little-endian host.
 */
module Inet {

  /** Byte k (0 = least significant) of a 16-bit value. */
  function Byte16(n: bv16, k: nat): bv8
    requires k < 2
  {
    if k == 0 then (n & 0xff) as bv8 else (n >> 8) as bv8
  }

  /** Byte k (0 = least significant) of a 32-bit value. */
  function Byte32(n: bv32, k: nat): bv8
    requires k < 4
  {
    if k == 0 then (n & 0xff) as bv8
    else if k == 1 then ((n >> 8) & 0xff) as bv8
    else if k == 2 then ((n >> 16) & 0xff) as bv8
    else (n >> 24) as bv8
  }

  /** How a little-endian host lays out a 16-bit value in memory, lowest address first. */
  function HostBytes16(n: bv16): seq<bv8> { [Byte16(n, 0), Byte16(n, 1)] }

  /** The network (big-endian) layout of a 16-bit value, lowest address first. */
  function NetworkBytes16(n: bv16): seq<bv8> { [Byte16(n, 1), Byte16(n, 0)] }

  function HostBytes32(n: bv32): seq<bv8> { [Byte32(n, 0), Byte32(n, 1), Byte32(n, 2), Byte32(n, 3)] }

  function NetworkBytes32(n: bv32): seq<bv8> { [Byte32(n, 3), Byte32(n, 2), Byte32(n, 1), Byte32(n, 0)] }

  /** htons: the low and the high byte change places. */
  function Htons(n: bv16): (r: bv16)
    ensures Byte16(r, 0) == Byte16(n, 1) && Byte16(r, 1) == Byte16(n, 0)
  {
    ((n & 0xff) << 8) | ((n & 0xff00) >> 8)
  }

  /** ntohs is htons again, and it undoes htons. */
  function Ntohs(n: bv16): (r: bv16)
    ensures Byte16(r, 0) == Byte16(n, 1) && Byte16(r, 1) == Byte16(n, 0)
    ensures Htons(r) == n
  {
    Htons(n)
  }

  /** htonl: the four bytes of the value in reverse order. */
  function Htonl(n: bv32): (r: bv32)
    ensures Byte32(r, 0) == Byte32(n, 3) && Byte32(r, 1) == Byte32(n, 2)
    ensures Byte32(r, 2) == Byte32(n, 1) && Byte32(r, 3) == Byte32(n, 0)
  {
    ((n & 0xff) << 24) |
    ((n & 0xff00) << 8) |
    ((n & 0xff0000) >> 8) |
    ((n & 0xff000000) >> 24)
  }

  /** ntohl is htonl again, and it undoes htonl. */
  function Ntohl(n: bv32): (r: bv32)
    ensures Byte32(r, 0) == Byte32(n, 3) && Byte32(r, 1) == Byte32(n, 2)
    ensures Byte32(r, 2) == Byte32(n, 1) && Byte32(r, 3) == Byte32(n, 0)
    ensures Htonl(r) == n
  {
    Htonl(n)
  }

  /** On a little-endian host, the in-memory bytes of htons(n) are n in network order. */
  lemma HtonsGivesNetworkOrder(n: bv16)
    ensures HostBytes16(Htons(n)) == NetworkBytes16(n)
  {
  }

  lemma HtonlGivesNetworkOrder(n: bv32)
    ensures HostBytes32(Htonl(n)) == NetworkBytes32(n)
  {
  }

  /** Each conversion is an involution: converting twice gives the value back. */
  lemma ConversionsAreInvolutions(s: bv16, l: bv32)
    ensures Ntohs(Htons(s)) == s && Htons(Ntohs(s)) == s
    ensures Ntohl(Htonl(l)) == l && Htonl(Ntohl(l)) == l
  {
  }
}
