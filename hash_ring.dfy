/**
 * The consistent-hash ring of `ConformityHash`: four servers, each placed on
 * the ring once under its own name and ten more times under the tagged names
 * `server&0` .. `server&9`, and the lookup that sends a user to the server
 * owning the first ring position at or above the user's hash.
 */
module HashRing {
  import opened Wrappers
  import opened JavaInt
  import opened JavaString
  import opened FnvHash
  import opened OrderedKeys

  /** `VIRTUAL_NODES_NUMBER`: the number of tagged copies of each server. */
  const VirtualNodesNumber: nat := 10

  /** The four server addresses as UTF-16 code units (all ASCII). */
  const Server0: JString := [0x31, 0x39, 0x32, 0x2e, 0x31, 0x36, 0x38, 0x2e, 0x31, 0x2e, 0x31, 0x3a, 0x38, 0x30, 0x30, 0x38]
  const Server1: JString := [0x31, 0x39, 0x32, 0x2e, 0x31, 0x36, 0x38, 0x2e, 0x31, 0x2e, 0x32, 0x3a, 0x38, 0x30, 0x30, 0x39]
  const Server2: JString := [0x31, 0x39, 0x32, 0x2e, 0x31, 0x36, 0x38, 0x2e, 0x31, 0x30, 0x31, 0x2e, 0x31, 0x3a, 0x38, 0x30, 0x30, 0x38]
  const Server3: JString := [0x31, 0x39, 0x32, 0x2e, 0x31, 0x36, 0x38, 0x2e, 0x39, 0x35, 0x2e, 0x31, 0x3a, 0x38, 0x30, 0x30, 0x38]

  /** `serverList`, in the order it is filled. */
  const ServerList: seq<JString> := [Server0, Server1, Server2, Server3]

  /** The code units above spell the four addresses of `serverList`. */
  lemma ServerListText()
    ensures ServerList == [
      Text("192.168.1.1:8008"),
      Text("192.168.1.2:8009"),
      Text("192.168.101.1:8008"),
      Text("192.168.95.1:8008")
    ]
  {
    ServerText0();
    ServerText1();
    ServerText2();
    ServerText3();
  }

  /** `Server0` is the text of `"192.168.1.1:8008"`. */
  lemma ServerText0()
    ensures Text("192.168.1.1:8008") == Server0
  {
  }

  /** `Server1` is the text of `"192.168.1.2:8009"`. */
  lemma ServerText1()
    ensures Text("192.168.1.2:8009") == Server1
  {
  }

  /** `Server2` is the text of `"192.168.101.1:8008"`. */
  lemma ServerText2()
    ensures Text("192.168.101.1:8008") == Server2
  {
  }

  /** `Server3` is the text of `"192.168.95.1:8008"`. */
  lemma ServerText3()
    ensures Text("192.168.95.1:8008") == Server3
  {
  }

  /** No server address contains `&`, so the lookup's tag stripping never cuts into one. */
  lemma ServersHaveNoAmpersand()
    ensures forall s :: s in ServerList ==> Ampersand !in s
  {
  }

  /** The name of virtual node `i` of `server`: the server, `&`, then `i` in decimal. */
  function VirtualName(server: JString, i: nat): JString {
    server + [Ampersand] + Decimal(i)
  }

  /** The names the inner loop appends for `server` after `count` passes. */
  function VirtualNames(server: JString, count: nat): (r: seq<JString>)
    ensures |r| == count
  {
    if count == 0 then [] else VirtualNames(server, count - 1) + [VirtualName(server, count - 1)]
  }

  /** The inner loop appends the virtual nodes in order: entry `i` is `server&i`. */
  lemma {:induction false} VirtualNamesAt(server: JString, count: nat, i: nat)
    requires i < count
    ensures VirtualNames(server, count)[i] == VirtualName(server, i)
  {
    if i < count - 1 {
      VirtualNamesAt(server, count - 1, i);
    }
  }

  /** What one pass of the outer loop appends: the server itself, then its `v` virtual nodes. */
  function ServerNodes(server: JString, v: nat): seq<JString> {
    [server] + VirtualNames(server, v)
  }

  /** `nodeList` once the outer loop has visited every server of `servers`. */
  function NodeNames(servers: seq<JString>, v: nat): (r: seq<JString>)
    ensures |r| == |servers| * (1 + v)
  {
    if servers == [] then []
    else
      var prefix := servers[..|servers| - 1];
      assert |servers| * (1 + v) == |prefix| * (1 + v) + (1 + v);
      NodeNames(prefix, v) + ServerNodes(servers[|servers| - 1], v)
  }

  /**
   * The servers are visited in list order, and each contributes its own name
   * followed by its virtual nodes 0 .. v-1: position `k * (1 + v)` holds server
   * `k`, and the `v` positions after it hold its tagged names.
   */
  lemma {:induction false} NodeNamesAt(servers: seq<JString>, v: nat, k: nat, i: nat)
    requires k < |servers| && i <= v
    ensures k * (1 + v) + i < |NodeNames(servers, v)|
    ensures NodeNames(servers, v)[k * (1 + v) + i] == if i == 0 then servers[k] else VirtualName(servers[k], i - 1)
    decreases |servers|
  {
    var last := |servers| - 1;
    var prefix := servers[..last];
    var before := NodeNames(prefix, v);
    var tail := ServerNodes(servers[last], v);
    assert NodeNames(servers, v) == before + tail;
    if k < last {
      MulMonotonic(k + 1, last, 1 + v);
      NodeNamesAt(prefix, v, k, i);
      assert prefix[k] == servers[k];
    } else if i > 0 {
      VirtualNamesAt(servers[k], v, i - 1);
    }
  }

  /** Multiplication by a natural number is monotonic. */
  lemma MulMonotonic(a: nat, b: nat, w: nat)
    requires a <= b
    ensures a * w <= b * w
  {
  }

  /** A name is a node of `servers`: a server itself, or one of its first `v` virtual nodes. */
  ghost predicate IsNodeOf(servers: seq<JString>, v: nat, n: JString) {
    n in servers || exists s, i: nat :: s in servers && i < v && n == VirtualName(s, i)
  }

  /** Every name in `nodeList` is a server or a tagged copy `server&i` with `i < v`. */
  lemma {:induction false} NodeNamesShape(servers: seq<JString>, v: nat, n: JString)
    requires n in NodeNames(servers, v)
    ensures IsNodeOf(servers, v, n)
    decreases |servers|
  {
    var last := |servers| - 1;
    var prefix := servers[..last];
    var s := servers[last];
    assert NodeNames(servers, v) == NodeNames(prefix, v) + ServerNodes(s, v);
    if n in NodeNames(prefix, v) {
      NodeNamesShape(prefix, v, n);
      assert forall t :: t in prefix ==> t in servers;
    } else if n == s {
      assert n in servers;
    } else {
      var vs := VirtualNames(s, v);
      assert n in vs;
      var i :| 0 <= i < v && vs[i] == n;
      VirtualNamesAt(s, v, i);
      assert s in servers && n == VirtualName(s, i);
    }
  }


  /** The ring after `put(getHash(n), n)` for every name `n` of `names`, in order. */
  function RingOf(names: seq<JString>): map<int, JString> {
    if names == [] then map[]
    else
      var n := names[|names| - 1];
      RingOf(names[..|names| - 1])[Hash(n) := n]
  }

  /**
   * The keys of the ring are exactly the hashes of the names put, every value
   * is one of those names and sits at its own hash, and since a `put` on a key
   * already present replaces its value, there are at most as many keys as names.
   */
  lemma {:induction false} RingOfContents(names: seq<JString>)
    ensures forall j :: 0 <= j < |names| ==> Hash(names[j]) in RingOf(names)
    ensures forall k :: k in RingOf(names) ==> RingOf(names)[k] in names && Hash(RingOf(names)[k]) == k
    ensures |RingOf(names)| <= |names|
    decreases |names|
  {
    if names != [] {
      var prefix := names[..|names| - 1];
      RingOfContents(prefix);
      assert names == prefix + [names[|names| - 1]];
    }
  }

  /** One more `put` at the end of the sequence of names. */
  lemma RingOfSnoc(names: seq<JString>, n: JString)
    ensures RingOf(names + [n]) == RingOf(names)[Hash(n) := n]
  {
    assert (names + [n])[..|names|] == names;
  }

  /** One more server visited by the outer loop. */
  lemma NodeNamesSnoc(servers: seq<JString>, k: nat, v: nat)
    requires k < |servers|
    ensures NodeNames(servers[..k + 1], v) == NodeNames(servers[..k], v) + ServerNodes(servers[k], v)
  {
    assert servers[..k + 1][..k] == servers[..k];
  }

  /** One more pass of the inner loop, after whatever was listed before. */
  lemma ServerNodesSnoc(before: seq<JString>, server: JString, i: nat)
    ensures before + ServerNodes(server, i) + [VirtualName(server, i)] == before + ServerNodes(server, i + 1)
  {
    assert ServerNodes(server, i + 1) == ServerNodes(server, i) + [VirtualName(server, i)];
  }

  /** A key holds the last name put under it: later names with other hashes leave it alone. */
  lemma {:induction false} RingOfLastWriter(names: seq<JString>, j: nat)
    requires j < |names|
    requires forall j' :: j < j' < |names| ==> Hash(names[j']) != Hash(names[j])
    ensures Hash(names[j]) in RingOf(names)
    ensures RingOf(names)[Hash(names[j])] == names[j]
    decreases |names|
  {
    var prefix := names[..|names| - 1];
    if j < |names| - 1 {
      RingOfLastWriter(prefix, j);
    }
  }

  /** `host` cut before its first `&`, if it has one. */
  function StripTag(host: JString): (r: JString)
    ensures Ampersand !in r
    ensures Ampersand in host ==> |r| < |host| && host[..|r|] == r && host[|r|] == Ampersand
    ensures Ampersand !in host ==> r == host
  {
    if Ampersand in host then host[..IndexOf(host, Ampersand)] else host
  }

  /** A virtual node's name strips back to its server, provided the server has no `&` of its own. */
  lemma StripTagOfVirtualName(server: JString, i: nat)
    requires Ampersand !in server
    ensures StripTag(VirtualName(server, i)) == server
  {
    var n := VirtualName(server, i);
    assert n[|server|] == Ampersand;
    assert n[..|server|] == server;
  }

  /** Every node name of the ring strips back to one of the servers. */
  lemma StripTagOfNode(n: JString)
    requires IsNodeOf(ServerList, VirtualNodesNumber, n)
    ensures StripTag(n) in ServerList
  {
    ServersHaveNoAmpersand();
    if n !in ServerList {
      var s, i: nat :| s in ServerList && i < VirtualNodesNumber && n == VirtualName(s, i);
      StripTagOfVirtualName(s, i);
    }
  }

  /** Where Java's `tailMap(hash).firstKey()` throws `NoSuchElementException`. */
  datatype LookupError = NoSuchElement

  /**
   * `getAddr` on the ring `ring` for a user whose hash is `hash`: the value at
   * the least key at or above `hash`, cut before its first `&`; a failure when
   * every key lies below `hash`, since the lookup does not wrap around.
   */
  function Lookup(ring: map<int, JString>, hash: int): (r: Result<JString, LookupError>)
    ensures r.Failure? <==> forall k :: k in ring ==> k < hash
    ensures r.Success? ==>
      exists k :: k in ring && hash <= k && r.value == StripTag(ring[k]) &&
        forall k' :: k' in ring && hash <= k' ==> k <= k'
  {
    match FirstKeyAtLeast(ring.Keys, hash)
    case None => Failure(NoSuchElement)
    case Some(k) => Success(StripTag(ring[k]))
  }

  /**
   * The lookup a consistent-hash ring is meant to perform: the value at the
   * least key at or above `hash`, and, when every key lies below `hash`, the
   * value at the least key of all, so that positions past the last key wrap
   * around to the first. Only an empty ring has nothing to return.
   */
  function LookupWrapping(ring: map<int, JString>, hash: int): (r: Result<JString, LookupError>)
    ensures r.Failure? <==> ring == map[]
    ensures Lookup(ring, hash).Success? ==> r == Lookup(ring, hash)
    ensures Lookup(ring, hash).Failure? && r.Success? ==>
      exists k :: k in ring && r.value == StripTag(ring[k]) && forall k' :: k' in ring ==> k <= k'
  {
    match FirstKeyAtLeast(ring.Keys, hash)
    case Some(k) => Success(StripTag(ring[k]))
    case None =>
      if ring.Keys == {} then
        assert ring == map[];
        Failure(NoSuchElement)
      else
        Success(StripTag(ring[Least(ring.Keys)]))
  }

  /** Taking every element of a sequence gives the sequence. */
  lemma TakeAll<T>(s: seq<T>)
    ensures s[..|s|] == s
  {
  }

  /**
   * The state `ConformityHash` builds in its static initialiser: `nodeList`,
   * every name placed on the ring in order, and `hashMap`, the ring itself.
   */
  class ConformityHash {
    var nodeList: seq<JString>
    var hashMap: map<int, JString>

    /** The invariant every step of the initialiser keeps: the ring holds exactly the names listed so far, each at its hash. */
    ghost predicate RingMatches()
      reads this
    {
      hashMap == RingOf(nodeList)
    }

    /** The state once the initialiser has run: every server and virtual node listed and placed. */
    ghost predicate Valid()
      reads this
    {
      nodeList == NodeNames(ServerList, VirtualNodesNumber) && RingMatches()
    }

    /** The static initialiser: list and place every server of `serverList`, in order, with its virtual nodes. */
    constructor ()
      ensures Valid()
      ensures |nodeList| == |ServerList| * (1 + VirtualNodesNumber) == 44
      ensures |hashMap| <= |nodeList|
    {
      nodeList := [];
      hashMap := map[];
      new;
      for k := 0 to |ServerList|
        invariant nodeList == NodeNames(ServerList[..k], VirtualNodesNumber)
        invariant RingMatches()
      {
        NodeNamesSnoc(ServerList, k, VirtualNodesNumber);
        AddServer(ServerList[k]);
      }
      TakeAll(ServerList);
      RingOfContents(nodeList);
    }

    /**
     * One pass of the initialiser's outer loop: list `server` and put it on the
     * ring under its own hash, then do the same for `server&0` .. `server&9`.
     */
    method AddServer(server: JString)
      requires RingMatches()
      modifies this
      ensures nodeList == old(nodeList) + ServerNodes(server, VirtualNodesNumber)
      ensures RingMatches()
    {
      RingOfSnoc(nodeList, server);
      nodeList := nodeList + [server];
      var h := GetHash(server);
      hashMap := hashMap[h := server];
      assert ServerNodes(server, 0) == [server];
      for i := 0 to VirtualNodesNumber
        invariant nodeList == old(nodeList) + ServerNodes(server, i)
        invariant RingMatches()
      {
        var virtual := VirtualName(server, i);
        ServerNodesSnoc(old(nodeList), server, i);
        RingOfSnoc(nodeList, virtual);
        nodeList := nodeList + [virtual];
        h := GetHash(virtual);
        hashMap := hashMap[h := virtual];
      }
    }

    /** `getAddr(userId)`: hash the user, take the first ring key at or above it, and strip the tag. */
    method GetAddr(userId: JString) returns (r: Result<JString, LookupError>)
      ensures r == Lookup(hashMap, Hash(userId))
      ensures Valid() && r.Success? ==> r.value in ServerList
    {
      var hash := GetHash(userId);
      var first := FirstKeyAtLeast(hashMap.Keys, hash);
      if first.None? {
        return Failure(NoSuchElement);
      }
      var host := hashMap[first.value];
      if Ampersand in host {
        host := host[..IndexOf(host, Ampersand)];
      }
      r := Success(host);
      if Valid() {
        StaticRingServes(hashMap, first.value);
      }
    }

    /**
     * `getAddr` with the wrap-around a consistent-hash ring calls for: when no
     * key lies at or above the user's hash, the least key of the ring serves.
     * On the ring the initialiser builds, every user is served by a server.
     */
    method GetAddrWrapping(userId: JString) returns (r: Result<JString, LookupError>)
      ensures r == LookupWrapping(hashMap, Hash(userId))
      ensures Valid() ==> r.Success? && r.value in ServerList
    {
      var hash := GetHash(userId);
      if Valid() {
        LookupWrappingServesServer(hashMap, hash);
      }
      var first := FirstKeyAtLeast(hashMap.Keys, hash);
      if first.None? {
        if hashMap.Keys == {} {
          assert hashMap == map[];
          return Failure(NoSuchElement);
        }
        first := Some(Least(hashMap.Keys));
      }
      var host := hashMap[first.value];
      if Ampersand in host {
        host := host[..IndexOf(host, Ampersand)];
      }
      r := Success(host);
    }
  }

  /** Every value stored in the static ring is a node name, and strips back to a server. */
  lemma StaticRingServes(ring: map<int, JString>, k: int)
    requires ring == RingOf(NodeNames(ServerList, VirtualNodesNumber))
    requires k in ring
    ensures IsNodeOf(ServerList, VirtualNodesNumber, ring[k])
    ensures StripTag(ring[k]) in ServerList
  {
    var names := NodeNames(ServerList, VirtualNodesNumber);
    RingOfContents(names);
    NodeNamesShape(ServerList, VirtualNodesNumber, ring[k]);
    StripTagOfNode(ring[k]);
  }

  /** On the static ring, every successful lookup names one of the servers. */
  lemma LookupServesServer(ring: map<int, JString>, hash: int)
    requires ring == RingOf(NodeNames(ServerList, VirtualNodesNumber))
    ensures Lookup(ring, hash).Success? ==> Lookup(ring, hash).value in ServerList
  {
    var first := FirstKeyAtLeast(ring.Keys, hash);
    if first.Some? {
      StaticRingServes(ring, first.value);
    }
  }

  /** On the static ring the wrapping lookup always succeeds, and always names one of the servers. */
  lemma LookupWrappingServesServer(ring: map<int, JString>, hash: int)
    requires ring == RingOf(NodeNames(ServerList, VirtualNodesNumber))
    ensures LookupWrapping(ring, hash).Success?
    ensures LookupWrapping(ring, hash).value in ServerList
  {
    var names := NodeNames(ServerList, VirtualNodesNumber);
    RingOfContents(names);
    assert Hash(names[0]) in ring;
    var first := FirstKeyAtLeast(ring.Keys, hash);
    if first.Some? {
      StaticRingServes(ring, first.value);
    } else {
      StaticRingServes(ring, Least(ring.Keys));
    }
  }
}
