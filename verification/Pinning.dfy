/** Which addresses are on the public internet, and what a resolved name is pinned to. */
module Pinning {
  import opened Wrappers

  // Addresses are their numeric values: 32 bits, and 128 bits.
  type U32 = x: int | 0 <= x < 0x1_0000_0000
  type U128 = x: int | 0 <= x < 0x1_0000_0000_0000_0000_0000_0000_0000_0000

  datatype Ip = V4(v4: U32) | V6(v6: U128)

  datatype Admission = PublicInternet | AllowLocal

  /** Why an address is not on the public internet. */
  datatype Why =
    | Loopback | PrivateRange | LinkLocal | Unspecified | Broadcast | Multicast | Documentation | CarrierGradeNat
    | LoopbackV6 | UnspecifiedV6 | MulticastV6 | UniqueLocalV6 | LinkLocalV6

  datatype BlockReason = Unresolvable(why: string) | PrivateHost(host: Ip, reason: Why)

  const NO_ADDRESSES := "it resolved to no addresses"

  /** Version 4 before version 6, then by value. */
  predicate Less(a: Ip, b: Ip) {
    match (a, b)
    case (V4(x), V4(y)) => x < y
    case (V6(x), V6(y)) => x < y
    case (V4(_), V6(_)) => true
    case (V6(_), V4(_)) => false
  }

  // ------------------------------------------------------------------ one address

  function Octet(v: U32, k: nat): int
    requires k < 4
  {
    match k
    case 0 => v / 0x100_0000
    case 1 => v / 0x1_0000 % 0x100
    case 2 => v / 0x100 % 0x100
    case _ => v % 0x100
  }

  predicate IsPrivate(v: U32) {
    || Octet(v, 0) == 10
    || (Octet(v, 0) == 172 && 16 <= Octet(v, 1) <= 31)
    || (Octet(v, 0) == 192 && Octet(v, 1) == 168)
  }

  predicate IsDocumentation(v: U32) {
    || (Octet(v, 0) == 192 && Octet(v, 1) == 0 && Octet(v, 2) == 2)
    || (Octet(v, 0) == 198 && Octet(v, 1) == 51 && Octet(v, 2) == 100)
    || (Octet(v, 0) == 203 && Octet(v, 1) == 0 && Octet(v, 2) == 113)
  }

  /** The two high bits of the second octet are 01. */
  predicate IsCgnat(v: U32) {
    Octet(v, 0) == 100 && Octet(v, 1) / 64 == 1
  }

  function WhyNotPublicV4(v: U32): Option<Why> {
    if Octet(v, 0) == 127 then Some(Loopback)
    else if IsPrivate(v) then Some(PrivateRange)
    else if Octet(v, 0) == 169 && Octet(v, 1) == 254 then Some(LinkLocal)
    else if v == 0 then Some(Unspecified)
    else if v == 0xFFFF_FFFF then Some(Broadcast)
    else if 224 <= Octet(v, 0) <= 239 then Some(Multicast)
    else if IsDocumentation(v) then Some(Documentation)
    else if IsCgnat(v) then Some(CarrierGradeNat)
    else None
  }

  /** The first sixteen bits. */
  function Segment0(v: U128): int {
    v / 0x1_0000_0000_0000_0000_0000_0000_0000
  }

  function MappedV4(v: U128): Option<U32> {
    if v / 0x1_0000_0000 == 0xFFFF then Some(v % 0x1_0000_0000) else None
  }

  function WhyNotPublicV6(v: U128): Option<Why> {
    if v == 1 then Some(LoopbackV6)
    else if v == 0 then Some(UnspecifiedV6)
    else if Segment0(v) / 0x100 == 0xFF then Some(MulticastV6)
    else if Segment0(v) / 0x200 == 0xFC00 / 0x200 then Some(UniqueLocalV6)
    else if Segment0(v) / 0x40 == 0xFE80 / 0x40 then Some(LinkLocalV6)
    else
      var mapped := MappedV4(v);
      if mapped.Some? then WhyNotPublicV4(mapped.value) else None
  }

  function WhyNotPublic(ip: Ip): Option<Why> {
    match ip
    case V4(v) => WhyNotPublicV4(v)
    case V6(v) => WhyNotPublicV6(v)
  }

  predicate In(v: int, from: int, size: int) {
    from <= v < from + size
  }

  /** A version 4 address is public exactly when it lies in none of these blocks. */
  lemma PublicV4Blocks(v: U32)
    ensures WhyNotPublicV4(v).None? <==>
      !( || In(v, 0x7F00_0000, 0x100_0000)                                   // 127.0.0.0/8
         || In(v, 0x0A00_0000, 0x100_0000)                                   // 10.0.0.0/8
         || In(v, 0xAC10_0000, 0x10_0000)                                    // 172.16.0.0/12
         || In(v, 0xC0A8_0000, 0x1_0000)                                     // 192.168.0.0/16
         || In(v, 0xA9FE_0000, 0x1_0000)                                     // 169.254.0.0/16
         || v == 0 || v == 0xFFFF_FFFF
         || In(v, 0xE000_0000, 0x1000_0000)                                  // 224.0.0.0/4
         || In(v, 0xC000_0200, 0x100) || In(v, 0xC633_6400, 0x100) || In(v, 0xCB00_7100, 0x100)
         || In(v, 0x6440_0000, 0x40_0000))                                   // 100.64.0.0/10
  {
    hide Octet;
    OctetsMakeTheValue(v);
  }

  lemma OctetsMakeTheValue(v: U32)
    ensures v == Octet(v, 0) * 0x100_0000 + Octet(v, 1) * 0x1_0000 + Octet(v, 2) * 0x100 + Octet(v, 3)
    ensures 0 <= Octet(v, 0) < 256 && 0 <= Octet(v, 1) < 256 && 0 <= Octet(v, 2) < 256 && 0 <= Octet(v, 3) < 256
  {
    assert v / 0x1_0000 == v / 0x100 / 0x100;
    assert v / 0x100_0000 == v / 0x1_0000 / 0x100;
  }

  /** A version 6 address is public exactly when it lies in no special block and maps to no special address. */
  lemma PublicV6Blocks(v: U128)
    ensures WhyNotPublicV6(v).None? <==>
      && v > 1
      && !In(v, 0xFF00_0000_0000_0000_0000_0000_0000_0000, 0x100_0000_0000_0000_0000_0000_0000_0000)   // ff00::/8
      && !In(v, 0xFC00_0000_0000_0000_0000_0000_0000_0000, 0x200_0000_0000_0000_0000_0000_0000_0000)   // fc00::/7
      && !In(v, 0xFE80_0000_0000_0000_0000_0000_0000_0000, 0x40_0000_0000_0000_0000_0000_0000_0000)    // fe80::/10
      && (In(v, 0xFFFF_0000_0000, 0x1_0000_0000) ==> WhyNotPublicV4(v - 0xFFFF_0000_0000).None?)       // ::ffff:0:0/96
  {
  }

  /** A mapped address is judged as the address it maps to, however it is spelled. */
  lemma MappedIsJudgedAsV4(v: U32)
    ensures WhyNotPublic(V6(0xFFFF_0000_0000 + v)) == WhyNotPublic(V4(v))
  {
  }

  /** Each reason names its own block, and no two blocks overlap. */
  lemma EachReasonNamesItsBlock(v: U32)
    ensures WhyNotPublicV4(v) == Some(Loopback) <==> In(v, 0x7F00_0000, 0x100_0000)
    ensures WhyNotPublicV4(v) == Some(PrivateRange) <==>
              In(v, 0x0A00_0000, 0x100_0000) || In(v, 0xAC10_0000, 0x10_0000) || In(v, 0xC0A8_0000, 0x1_0000)
    ensures WhyNotPublicV4(v) == Some(LinkLocal) <==> In(v, 0xA9FE_0000, 0x1_0000)
    ensures WhyNotPublicV4(v) == Some(Unspecified) <==> v == 0
    ensures WhyNotPublicV4(v) == Some(Broadcast) <==> v == 0xFFFF_FFFF
    ensures WhyNotPublicV4(v) == Some(Multicast) <==> In(v, 0xE000_0000, 0x1000_0000)
    ensures WhyNotPublicV4(v) == Some(Documentation) <==>
              In(v, 0xC000_0200, 0x100) || In(v, 0xC633_6400, 0x100) || In(v, 0xCB00_7100, 0x100)
    ensures WhyNotPublicV4(v) == Some(CarrierGradeNat) <==> In(v, 0x6440_0000, 0x40_0000)
  {
    hide Octet;
    OctetsMakeTheValue(v);
  }

  // ------------------------------------------------------------------ pinning

  predicate Increasing(s: seq<Ip>) {
    forall i, j :: 0 <= i < j < |s| ==> Less(s[i], s[j])
  }

  function SetOf(s: seq<Ip>): set<Ip> {
    set ip | ip in s
  }

  /** Put an address where it belongs, unless it is there. */
  function Insert(ip: Ip, s: seq<Ip>): seq<Ip> {
    if s == [] || Less(ip, s[0]) then [ip] + s
    else if s[0] == ip then s
    else [s[0]] + Insert(ip, s[1..])
  }

  function SortUnique(s: seq<Ip>): seq<Ip> {
    if s == [] then [] else Insert(s[|s| - 1], SortUnique(s[..|s| - 1]))
  }

  lemma {:induction false} InsertSorts(ip: Ip, s: seq<Ip>)
    requires Increasing(s)
    ensures Increasing(Insert(ip, s))
    ensures forall x :: x in Insert(ip, s) <==> x == ip || x in s
  {
    if s != [] && !Less(ip, s[0]) && s[0] != ip {
      InsertSorts(ip, s[1..]);
      var rest := Insert(ip, s[1..]);
      assert forall x :: x in s <==> x == s[0] || x in s[1..];
      assert forall x :: x in [s[0]] + rest <==> x == s[0] || x in rest;
      forall j | 0 <= j < |rest| ensures Less(s[0], rest[j]) {
        assert rest[j] in rest;
      }
    }
  }

  lemma {:induction false} SortingSorts(s: seq<Ip>)
    ensures Increasing(SortUnique(s)) && SetOf(SortUnique(s)) == SetOf(s)
  {
    if s != [] {
      var init, last := s[..|s| - 1], s[|s| - 1];
      SortingSorts(init);
      InsertSorts(last, SortUnique(init));
      assert forall x :: x in s <==> x == last || x in init;
      forall x ensures x in SortUnique(s) <==> x in s {
        assert x in SortUnique(init) <==> x in SetOf(SortUnique(init));
        assert x in init <==> x in SetOf(init);
      }
    }
  }

  /** One set of addresses has one increasing list. */
  lemma {:induction false} IncreasingIsUnique(a: seq<Ip>, b: seq<Ip>)
    requires Increasing(a) && Increasing(b) && SetOf(a) == SetOf(b)
    ensures a == b
  {
    assert a != [] ==> a[0] in SetOf(a);
    assert b != [] ==> b[0] in SetOf(b);
    if a != [] {
      assert a[0] in SetOf(a) && a[0] in SetOf(b);
      assert b[0] in SetOf(b) && b[0] in SetOf(a);
      assert a[0] == b[0];
      forall x ensures x in SetOf(a[1..]) <==> x in SetOf(b[1..]) {
        assert x in SetOf(a) <==> x == a[0] || x in a[1..];
        assert x in SetOf(b) <==> x == b[0] || x in b[1..];
      }
      IncreasingIsUnique(a[1..], b[1..]);
      assert a == [a[0]] + a[1..] && b == [b[0]] + b[1..];
    }
  }

  /** The first address of a list that is not public. */
  function FirstPrivate(s: seq<Ip>): (i: nat)
    ensures i <= |s|
    ensures forall j :: 0 <= j < i ==> WhyNotPublic(s[j]).None?
    ensures i < |s| ==> WhyNotPublic(s[i]).Some?
  {
    if s == [] || WhyNotPublic(s[0]).Some? then 0 else 1 + FirstPrivate(s[1..])
  }

  /** What a name's addresses amount to. A literal address is no name, and carries no pins. */
  function PinOf(isName: bool, admission: Admission, answer: Result<seq<Ip>, string>): Result<seq<Ip>, BlockReason> {
    if !isName then Success([])
    else
      match answer
      case Failure(error) => Failure(Unresolvable(error))
      case Success(found) =>
        var addrs := SortUnique(found);
        if addrs == [] then Failure(Unresolvable(NO_ADDRESSES))
        else
          var i := FirstPrivate(addrs);
          if admission == PublicInternet && i < |addrs|
          then Failure(PrivateHost(addrs[i], WhyNotPublic(addrs[i]).value))
          else Success(addrs)
  }

  /** Sorted and without repeats: the one increasing list of the same addresses. */
  method Sorted(found: seq<Ip>) returns (addrs: seq<Ip>)
    ensures Increasing(addrs) && SetOf(addrs) == SetOf(found)
    ensures addrs == SortUnique(found)
  {
    addrs := [];
    for i := 0 to |found|
      invariant addrs == SortUnique(found[..i])
    {
      assert found[..i + 1][..i] == found[..i];
      addrs := Insert(found[i], addrs);
    }
    assert found[..|found|] == found;
    SortingSorts(found);
  }

  method Pin(isName: bool, admission: Admission, answer: Result<seq<Ip>, string>)
    returns (r: Result<seq<Ip>, BlockReason>)
    ensures r == PinOf(isName, admission, answer)
  {
    if !isName {
      return Success([]);
    }
    if answer.Failure? {
      return Failure(Unresolvable(answer.error));
    }
    var addrs := Sorted(answer.value);
    if addrs == [] {
      return Failure(Unresolvable(NO_ADDRESSES));
    }
    if admission == PublicInternet {
      for i := 0 to |addrs|
        invariant forall j :: 0 <= j < i ==> WhyNotPublic(addrs[j]).None?
      {
        var reason := WhyNotPublic(addrs[i]);
        if reason.Some? {
          assert FirstPrivate(addrs) == i;
          return Failure(PrivateHost(addrs[i], reason.value));
        }
      }
    }
    r := Success(addrs);
  }

  /** A name that cannot be resolved is refused for that reason, whatever the policy; an address needs no pins. */
  lemma OnlyNamesAreResolved(isName: bool, admission: Admission, answer: Result<seq<Ip>, string>)
    ensures var r := PinOf(isName, admission, answer);
      && (!isName ==> r == Success([]))
      && (isName && answer.Failure? ==> r == Failure(Unresolvable(answer.error)))
      && (r == Success([]) <==> !isName)
  {
    if isName && answer.Success? {
      hide WhyNotPublic;
      PinnedExactlyWhenAllArePublic(admission, answer.value);
    }
  }

  /** Order and repeats in the resolver's answer make no difference. */
  lemma PinDependsOnlyOnTheSet(admission: Admission, a: seq<Ip>, b: seq<Ip>)
    requires SetOf(a) == SetOf(b)
    ensures PinOf(true, admission, Success(a)) == PinOf(true, admission, Success(b))
  {
    SortingSorts(a);
    SortingSorts(b);
    IncreasingIsUnique(SortUnique(a), SortUnique(b));
  }

  /** The least address that is not public, where the addresses have one, is the first of their sorted list. */
  lemma FirstPrivateIsLeast(found: seq<Ip>)
    ensures var (addrs, i) := (SortUnique(found), FirstPrivate(SortUnique(found)));
      && (i == |addrs| <==> forall ip :: ip in found ==> WhyNotPublic(ip).None?)
      && (i < |addrs| ==>
            && addrs[i] in found
            && forall ip :: ip in found && WhyNotPublic(ip).Some? ==> ip == addrs[i] || Less(addrs[i], ip))
  {
    hide WhyNotPublic, SortUnique, FirstPrivate;
    SortingSorts(found);
    SameMembers(SortUnique(found), found);
    var addrs, i := SortUnique(found), FirstPrivate(SortUnique(found));
    forall ip | ip in found && WhyNotPublic(ip).Some? ensures i < |addrs| && (ip == addrs[i] || Less(addrs[i], ip)) {
      var k :| 0 <= k < |addrs| && addrs[k] == ip;
      assert k >= i;
    }
    if i < |addrs| {
      assert addrs[i] in addrs;
    }
  }

  lemma SameMembers(a: seq<Ip>, b: seq<Ip>)
    requires SetOf(a) == SetOf(b)
    ensures forall ip :: ip in a <==> ip in b
    ensures a == [] <==> b == []
  {
    forall ip ensures ip in a <==> ip in b {
      assert ip in a <==> ip in SetOf(a);
      assert ip in b <==> ip in SetOf(b);
    }
    assert a != [] ==> a[0] in a;
    assert b != [] ==> b[0] in b;
  }

  /**
   * A name is pinned exactly when it has an address and, under the default policy, every one of them is public; the
   * pins are all its addresses, increasing. A refusal for a private address names the least such address; any other
   * is for having none.
   */
  lemma PinnedExactlyWhenAllArePublic(admission: Admission, found: seq<Ip>)
    ensures var r := PinOf(true, admission, Success(found));
      && (r.Success? <==>
            found != [] && (admission == PublicInternet ==> forall ip :: ip in found ==> WhyNotPublic(ip).None?))
      && (r.Success? ==> r.value != [] && Increasing(r.value) && SetOf(r.value) == SetOf(found))
      && (r.Failure? ==> if found == [] then r.error == Unresolvable(NO_ADDRESSES) else r.error.PrivateHost?)
      && (r.Failure? && r.error.PrivateHost? ==>
            && r.error.host in found && WhyNotPublic(r.error.host) == Some(r.error.reason)
            && forall ip :: ip in found && WhyNotPublic(ip).Some? ==> ip == r.error.host || Less(r.error.host, ip))
  {
    hide WhyNotPublic, SortUnique, FirstPrivate;
    SortingSorts(found);
    SameMembers(SortUnique(found), found);
    FirstPrivateIsLeast(found);
  }
}
