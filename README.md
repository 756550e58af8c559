# Consistent-hash ring of `ConformityHash`

This project models, in Dafny, the consistent-hash ring in `ConformityHash`, and proves what the model does. Four server addresses go each on the ring under its own name, then ten more times under the tagged names `server&0` .. `server&9`. Each name sits at its hash. A user id is served by the name at the first ring position at or above the user's hash, with the tag cut off.

The model has three parts:

- **`getHash`.** It is a 32-bit FNV-1a accumulation over the string's UTF-16 code units: offset basis 2166136261, prime 16777619, XOR then multiply, as in section 2 of the IETF draft draft-eastlake-fnv. A shift/XOR/add finisher follows, then `Math.abs` on a negative result.
  - Java's `int` is kept as its bit pattern (`bv32`), so `+`, `*`, `<<` and `^` wrap exactly as in Java.
  - Java's arithmetic `>>` is written out as a sign-extending shift.
- **The static initialiser.** It is a class whose constructor runs the two nested loops of the source, updating `nodeList` (a `seq`) and `hashMap` (a `map`) in place. Each step is proved against the specification functions `NodeNames` and `RingOf`.
- **`getAddr`.** It takes the least key at or above the hash (`tailMap(h).firstKey()` under signed `Integer` order), looks up the value, and strips it before its first `&`. The code has no wrap-around: when every key lies below the hash, Java throws `NoSuchElementException`, and the model returns `Failure(NoSuchElement)`.

Modules, one per file:

| file | module | contents |
|---|---|---|
| `wrappers.dfy` | `Wrappers` | `Option`, `Result` |
| `java_int.dfy` | `JavaInt` | signed view of a `bv32`, `Math.abs`, arithmetic `>>` |
| `java_string.dfy` | `JavaString` | strings as UTF-16 units, `indexOf`, decimal text of an `int` |
| `fnv_hash.dfy` | `FnvHash` | `getHash` as a function and as the source's loop |
| `ordered_keys.dfy` | `OrderedKeys` | the `TreeMap` queries `firstKey` and `tailMap(h).firstKey()` |
| `hash_ring.dfy` | `HashRing` | node names, ring contents, lookup, class `ConformityHash` |
| `static_ring.dfy` | `StaticRing` | the concrete ring: the hash of each of the 44 node names, and two concrete lookups |

Where the code departs from the usual behaviour of a consistent-hash ring or of FNV, the model follows the code:

- A consistent-hash ring is normally circular: past the last key, the least key serves. The code does not wrap around; see Findings.
- FNV is specified over octets, so a string would be hashed as its UTF-8 bytes. The code hashes Java `char`s, which are UTF-16 code units, and so does the model.
- Ring positions are normally unsigned 32-bit values. The code keys the `TreeMap` by signed `Integer`. Every hash lies in `0 ..= Integer.MAX_VALUE` (`FnvHash.HashIsNonNegative`), so the two orders agree on every key.
- A ring normally offers node addition and removal, and checks node identities. The code has none of these: its ring is built once from a fixed list. The model instead proves that no configured address contains `&` (`HashRing.ServersHaveNoAmpersand`).

## Model

Every path below is relative to the repository root.

| member | source | states |
|---|---|---|
| `JavaInt.ToIntSign` | src/main/java/com/ting/utils/hash/ConformityHash.java:87 | `hash < 0` holds exactly when the sign bit of the pattern is set |
| `JavaInt.Abs` | src/main/java/com/ting/utils/hash/ConformityHash.java:88 | `Math.abs` negates a negative `int`, gives a non-negative result, and leaves `Integer.MIN_VALUE` as itself |
| `JavaInt.SignedShiftRightKeepsSign` | src/main/java/com/ting/utils/hash/ConformityHash.java:81-83 | the arithmetic `>>` never changes the sign bit |
| `JavaInt.XorShiftClearsSign` | src/main/java/com/ting/utils/hash/ConformityHash.java:81-83 | `x ^ (x >> n)` always has a clear sign bit |
| `JavaInt.SignedShiftRight7` | src/main/java/com/ting/utils/hash/ConformityHash.java:81 | `>> 7` is the logical shift with the seven top bits copied from the sign bit |
| `JavaInt.SignedShiftRight17` | src/main/java/com/ting/utils/hash/ConformityHash.java:83 | `>> 17` is the logical shift with the seventeen top bits copied from the sign bit |
| `JavaString.Text` | src/main/java/com/ting/utils/hash/ConformityHash.java:20-26 | the string of a literal has one code unit per character, with the character's value, and contains `&` exactly when the literal does |
| `JavaString.IndexOf` | src/main/java/com/ting/utils/hash/ConformityHash.java:65 | `indexOf` gives -1 exactly when the unit is absent; otherwise it gives a position holding the unit with no earlier occurrence |
| `JavaString.Decimal` | src/main/java/com/ting/utils/hash/ConformityHash.java:45 | the text `"" + i` is a non-empty run of decimal digits with no leading zero |
| `JavaString.DecimalRoundTrip` | src/main/java/com/ting/utils/hash/ConformityHash.java:45 | reading back the decimal text of `i` gives `i` |
| `JavaString.DecimalInjective` | src/main/java/com/ting/utils/hash/ConformityHash.java:45 | distinct replica indices get distinct tags |
| `JavaString.DecimalHasNoAmpersand` | src/main/java/com/ting/utils/hash/ConformityHash.java:45 | the index part of a tag never contains `&` |
| `FnvHash.AccumulateConcat` | src/main/java/com/ting/utils/hash/ConformityHash.java:76-78 | the loop over `s + t` equals the loop over `s`, continued over `t` from the state it reached |
| `FnvHash.AccumulateSnoc` | src/main/java/com/ting/utils/hash/ConformityHash.java:76-78 | one more unit costs one more `(hash ^ c) * p` step |
| `FnvHash.XorShiftedRight` | src/main/java/com/ting/utils/hash/ConformityHash.java:81-83 | `hash ^= hash >> n` yields a value with a clear sign bit |
| `FnvHash.TimesThirtyThreeNotMin` | src/main/java/com/ting/utils/hash/ConformityHash.java:84 | `hash += hash << 5` on a value with a clear sign bit never gives `Integer.MIN_VALUE` |
| `FnvHash.FinishIsNotMinValue` | src/main/java/com/ting/utils/hash/ConformityHash.java:80-84 | for every accumulator, the five updates never produce `Integer.MIN_VALUE` |
| `FnvHash.HashIsNonNegative` | src/main/java/com/ting/utils/hash/ConformityHash.java:86-90 | a negative mixed value is replaced by its negation and a non-negative one is kept; so `Math.abs`'s one negative case never arises and every hash lies in `0 ..= Integer.MAX_VALUE` |
| `FnvHash.GetHash` | src/main/java/com/ting/utils/hash/ConformityHash.java:73-91 | the loop from `(int)2166136261L`, the five in-place updates and the sign fix compute `Hash(str)`, which lies in `0 ..= Integer.MAX_VALUE` |
| `FnvHash.MixedIs` | src/main/java/com/ting/utils/hash/ConformityHash.java:80-90 | the value left after the five updates is the mixed value of `str`, and the hash is its absolute value, within range |
| `OrderedKeys.LeastExists` | src/main/java/com/ting/utils/hash/ConformityHash.java:61 | every non-empty finite key set has a least key |
| `OrderedKeys.Least` | src/main/java/com/ting/utils/hash/ConformityHash.java:61 | `firstKey()` is in the set and at most every key of it |
| `OrderedKeys.TailIsEmpty` | src/main/java/com/ting/utils/hash/ConformityHash.java:61 | `tailMap(h)` is empty exactly when every key lies below `h` |
| `OrderedKeys.FirstKeyAtLeast` | src/main/java/com/ting/utils/hash/ConformityHash.java:61 | `tailMap(h).firstKey()` fails exactly when every key lies below `h`; otherwise it is a key at or above `h`, and the least such key |
| `HashRing.ServerListText` | src/main/java/com/ting/utils/hash/ConformityHash.java:20-26 | `serverList` holds the four addresses, in order |
| `HashRing.ServersHaveNoAmpersand` | src/main/java/com/ting/utils/hash/ConformityHash.java:20-26 | no server address contains `&` |
| `HashRing.VirtualNames` | src/main/java/com/ting/utils/hash/ConformityHash.java:44-46 | the inner loop adds one name per pass |
| `HashRing.VirtualNamesAt` | src/main/java/com/ting/utils/hash/ConformityHash.java:44-46 | pass `i` of the inner loop adds `server + "&" + i` |
| `HashRing.NodeNames` | src/main/java/com/ting/utils/hash/ConformityHash.java:40-51 | `nodeList` ends with (number of servers) * (1 + `VIRTUAL_NODES_NUMBER`) names |
| `HashRing.NodeNamesAt` | src/main/java/com/ting/utils/hash/ConformityHash.java:41-49 | servers are visited in list order; position `k * 11` holds server `k` and the ten positions after it hold `server&0` .. `server&9` |
| `HashRing.NodeNamesShape` | src/main/java/com/ting/utils/hash/ConformityHash.java:41-49 | every listed name is a server, or a server followed by `&` and an index below `VIRTUAL_NODES_NUMBER` |
| `HashRing.RingOfContents` | src/main/java/com/ting/utils/hash/ConformityHash.java:43-48 | every name put is found at its hash; every value is a name put, stored at its own hash; and since `put` overwrites, there are at most as many keys as names |
| `HashRing.RingOfSnoc` | src/main/java/com/ting/utils/hash/ConformityHash.java:48 | one more `put(getHash(n), n)` updates the ring at the hash of `n` alone |
| `HashRing.RingOfLastWriter` | src/main/java/com/ting/utils/hash/ConformityHash.java:43-48 | a key holds the last name put under it |
| `HashRing.StripTag` | src/main/java/com/ting/utils/hash/ConformityHash.java:64-66 | the stripped host contains no `&`; a host with `&` is cut just before its first `&`; a host without one is returned unchanged |
| `HashRing.StripTagOfVirtualName` | src/main/java/com/ting/utils/hash/ConformityHash.java:64-66 | stripping `server&i` gives back `server` when the server has no `&` |
| `HashRing.StripTagOfNode` | src/main/java/com/ting/utils/hash/ConformityHash.java:63-66 | every node name of the ring strips to a member of `serverList` |
| `HashRing.Lookup` | src/main/java/com/ting/utils/hash/ConformityHash.java:58-68 | `getAddr` fails exactly when every key lies below the hash; otherwise it returns the stripped value at the least key at or above the hash |
| `HashRing.LookupWrapping` | src/main/java/com/ting/utils/hash/ConformityHash.java:58-68 | the wrapping lookup fails only on an empty ring; it agrees with `Lookup` wherever `Lookup` succeeds; past the last key it serves the least key of all |
| `HashRing.ConformityHash.constructor` | src/main/java/com/ting/utils/hash/ConformityHash.java:40-51 | the static initialiser leaves `nodeList == NodeNames(serverList, 10)` (44 names) and `hashMap == RingOf(nodeList)`, with at most 44 keys |
| `HashRing.ConformityHash.AddServer` | src/main/java/com/ting/utils/hash/ConformityHash.java:41-49 | one pass of the outer loop appends the server and its ten tagged names to `nodeList`, and keeps the invariant `RingMatches()`: `hashMap` is the ring of `nodeList` |
| `HashRing.ConformityHash.GetAddr` | src/main/java/com/ting/utils/hash/ConformityHash.java:58-68 | `getAddr(userId)` returns `Lookup(hashMap, getHash(userId))`; on the initialised ring every success is a member of `serverList` |
| `HashRing.ConformityHash.GetAddrWrapping` | src/main/java/com/ting/utils/hash/ConformityHash.java:58-68 | the lookup with wrap-around returns `LookupWrapping(hashMap, getHash(userId))`; on the initialised ring it always succeeds with a member of `serverList` |
| `HashRing.StaticRingServes` | src/main/java/com/ting/utils/hash/ConformityHash.java:41-49 | every value stored in the static ring is a server or a tagged name `server&i` with `i < 10`, and strips to a server |
| `HashRing.LookupServesServer` | src/main/java/com/ting/utils/hash/ConformityHash.java:58-68 | on the static ring every successful `getAddr` names a member of `serverList` |
| `HashRing.LookupWrappingServesServer` | src/main/java/com/ting/utils/hash/ConformityHash.java:58-68 | on the static ring the wrapping lookup always succeeds, with a member of `serverList` |
| `StaticRing.AccumulateOrderMatters` | src/main/java/com/ting/utils/hash/ConformityHash.java:76-78 | the accumulation depends on order: `"12"` and `"21"` leave different accumulators |
| `StaticRing.HashOrderMatters` | src/main/java/com/ting/utils/hash/ConformityHash.java:73-91 | the hash depends on order as well: `getHash("12")` is 1796605027 and `getHash("21")` is 2093235260 |
| `StaticRing.HashOfServer0` | src/main/java/com/ting/utils/hash/ConformityHash.java:43 | the ring key of `192.168.1.1:8008` is 1088516136 (and likewise, per server and per tagged name, the other `HashOfServer`/`HashOfVirtual` lemmas) |
| `StaticRing.NodeHashInRange` | src/main/java/com/ting/utils/hash/ConformityHash.java:41-49 | every one of the 44 node names hashes into `198132629 ..= 2147152735` |
| `StaticRing.StaticRingKeysInRange` | src/main/java/com/ting/utils/hash/ConformityHash.java:40-51 | every key of the static ring lies in `198132629 ..= 2147152735` |
| `StaticRing.MaxNodeHashIsKey` | src/main/java/com/ting/utils/hash/ConformityHash.java:48 | 2147152735, the hash of `192.168.95.1:8008&6`, is a key |
| `StaticRing.MinNodeHashIsKey` | src/main/java/com/ting/utils/hash/ConformityHash.java:48 | 198132629, the hash of `192.168.1.1:8008&7`, is a key |
| `StaticRing.HashOfMainUser` | src/main/java/com/ting/utils/hash/ConformityHash.java:94 | `getHash("1235465")` is 1600216931 |
| `StaticRing.LookupOfMainUser` | src/main/java/com/ting/utils/hash/ConformityHash.java:93-95 | the lookup `main` performs succeeds, with a member of `serverList` |
| `StaticRing.HashOfUser777` | src/main/java/com/ting/utils/hash/ConformityHash.java:73-91 | `getHash("777")` is 2147305209 |
| `StaticRing.LookupOfUser777` | src/main/java/com/ting/utils/hash/ConformityHash.java:58-68 | `getAddr("777")` fails, because its hash exceeds every key; the wrapping lookup serves the owner of the least key, a member of `serverList` |

## Left out

- The `System.out.println` calls in `getAddr` (line 62) and `main` (line 94) are console output. `main`'s lookup itself is covered by `StaticRing.LookupOfMainUser`.
- JVM class initialisation and thread safety are left out. The static initialiser is modelled as one sequential constructor run, and the class holds the two static collections as fields.
- Node addition, removal and rebalancing are absent from the code, so there is nothing to model.
- The other files of the repository are not part of this model: date and stream helpers, Redis and HTTP plumbing, Spring hooks, service-loader discovery and the parameter holder.
- Characters outside the Basic Multilingual Plane take two UTF-16 units in Java. `JavaString.Text` covers only literals inside that plane, which includes every literal the code uses. `JString` itself is any sequence of code units.
- The model proves that the static ring has at most 44 keys. That all 44 positions are distinct, with no collision, follows from the 44 node hashes in `StaticRing` but is not stated as a lemma.
- The model proves that the wrapping lookup for `"777"` serves whichever server owns key 198132629. It does not name that server.

## Findings

| source | as written | input that shows it | evidently intended | confidence | as-written member | corrected member |
|---|---|---|---|---|---|---|
| src/main/java/com/ting/utils/hash/ConformityHash.java:61 | `hashMap.tailMap(hash).firstKey()` has no wrap-around: for a hash above every ring key the tail map is empty and `firstKey()` throws `NoSuchElementException` | user id `"777"`: `getHash("777")` is 2147305209, above the largest ring key 2147152735 (`192.168.95.1:8008&6`) | past the last key the ring wraps around to its least key (198132629), as a consistent-hash ring is normally meant to | not executed; proved on the model | `StaticRing.LookupOfUser777` | `HashRing.LookupWrapping` |

The as-written behaviour stays modelled in `HashRing.Lookup` and `HashRing.ConformityHash.GetAddr`. The corrected lookup is `HashRing.LookupWrapping`, with the method `HashRing.ConformityHash.GetAddrWrapping`. `HashRing.LookupWrappingServesServer` proves that on the static ring it succeeds for every hash, with a member of `serverList`.
