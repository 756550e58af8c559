/**
 * The ring that the static initialiser of `ConformityHash` actually builds:
 * the hash of every one of its 44 node names, worked out from the code units
 * of the four addresses, and what `getAddr` does with two concrete user ids,
 * `"1235465"` (the one `main` looks up) and `"777"`, whose hash lies above
 * every key of the ring.
 */
module StaticRing {
  import opened Wrappers
  import opened JavaInt
  import opened JavaString
  import opened FnvHash
  import opened OrderedKeys
  import opened HashRing

  /** The largest key of the static ring: the hash of `192.168.95.1:8008&6`. */
  const MaxNodeHash: int := 2147152735
  /** The least key of the static ring. */
  const MinNodeHash: int := 198132629

  /** Four steps of the loop, written out. */
  lemma AccumulateFour(h: bv32, a: JChar, b: JChar, c: JChar, d: JChar)
    ensures Accumulate(h, [a, b, c, d]) == Step(Step(Step(Step(h, a), b), c), d)
  {
    var h1 := Step(h, a);
    var h2 := Step(h1, b);
    var h3 := Step(h2, c);
    var h4 := Step(h3, d);
    assert Accumulate(h4, []) == h4;
    assert [d][1..] == [];
    assert Accumulate(h3, [d]) == h4;
    assert [c, d][1..] == [d];
    assert Accumulate(h2, [c, d]) == h4;
    assert [b, c, d][1..] == [c, d];
    assert Accumulate(h1, [b, c, d]) == h4;
    assert [a, b, c, d][1..] == [b, c, d];
  }

  /** The hash of a string, from its accumulator, its finisher result and that result's signed value. */
  lemma HashFromSteps(str: JString, a: bv32, h5: bv32, x: int)
    requires Accumulate(OffsetBasis, str) == a
    requires Finish(a) == h5
    requires ToInt(h5) == x
    ensures Hash(str) == if x < 0 then -x else x
  {
    HashIsNonNegative(str);
  }

  /** The accumulator of `server&i`, for a one-digit `i`, is two more steps on the server's. */
  lemma AccumulatorOfVirtual(server: JString, i: nat, a: bv32, d: JChar)
    requires Decimal(i) == [d]
    requires Accumulate(OffsetBasis, server) == a
    ensures Accumulate(OffsetBasis, VirtualName(server, i)) == Step(Step(a, 0x26), d)
  {
    AccumulateSnoc(OffsetBasis, server, Ampersand);
    AccumulateConcat(OffsetBasis, server + [Ampersand], [d]);
    assert Accumulate(Step(a, 0x26), [d]) == Step(Step(a, 0x26), d);
  }

  /** The hash of `server&i`, for a one-digit `i`, from the server's accumulator. */
  lemma HashOfVirtualName(server: JString, i: nat, a: bv32, d: JChar, h5: bv32, x: int)
    requires Decimal(i) == [d]
    requires Accumulate(OffsetBasis, server) == a
    requires Finish(Step(Step(a, 0x26), d)) == h5
    requires ToInt(h5) == x
    ensures Hash(VirtualName(server, i)) == if x < 0 then -x else x
  {
    AccumulatorOfVirtual(server, i, a, d);
    HashIsNonNegative(VirtualName(server, i));
  }

  /** Two steps of the loop, written out. */
  lemma AccumulateTwo(h: bv32, a: JChar, b: JChar)
    ensures Accumulate(h, [a, b]) == Step(Step(h, a), b)
  {
    var h1 := Step(h, a);
    assert [b][1..] == [];
    assert Accumulate(h1, [b]) == Step(h1, b);
    assert [a, b][1..] == [b];
  }

  /** The accumulator depends on the order of the units: `"12"` and `"21"` end in different states. */
  lemma AccumulateOrderMatters()
    ensures Accumulate(OffsetBasis, [0x31, 0x32]) != Accumulate(OffsetBasis, [0x32, 0x31])
  {
    AccumulateTwo(OffsetBasis, 0x31, 0x32);
    AccumulateTwo(OffsetBasis, 0x32, 0x31);
    assert Step(Step(0x811c9dc5, 0x31), 0x32) == 0x1deb2d6a;
    assert Step(Step(0x811c9dc5, 0x32), 0x31) == 0x8cf297ec;
  }

  /** The accumulators of `"12"` and of `"21"`. */
  lemma AccumulatorsOfTwoOrders(s: JString, t: JString)
    requires s == [0x31, 0x32]
    requires t == [0x32, 0x31]
    ensures Accumulate(OffsetBasis, s) == 0x1deb2d6a
    ensures Accumulate(OffsetBasis, t) == 0x8cf297ec
  {
    AccumulateTwo(OffsetBasis, 0x31, 0x32);
    AccumulateTwo(OffsetBasis, 0x32, 0x31);
    assert Step(Step(0x811c9dc5, 0x31), 0x32) == 0x1deb2d6a;
    assert Step(Step(0x811c9dc5, 0x32), 0x31) == 0x8cf297ec;
  }

  /** The finisher applied to the accumulator of `"12"`. */
  lemma FinishOfTwelve()
    ensures Finish(0x1deb2d6a) == 0x94e9fb9d
  {
    assert AddShiftedLeft(0x1deb2d6a, 13) == 0x83986d6a;
    SignedShiftRight7(0x83986d6a);
    assert XorShiftedRight(0x83986d6a, 7) == 0x7c9f5db0;
    assert AddShiftedLeft(0x7c9f5db0, 3) == 0x619a4b30;
    SignedShiftRight17(0x619a4b30);
    assert XorShiftedRight(0x619a4b30, 17) == 0x619a7bfd;
    assert AddShiftedLeft(0x619a7bfd, 5) == 0x94e9fb9d;
  }

  /** The finisher applied to the accumulator of `"21"`. */
  lemma FinishOfTwentyOne()
    ensures Finish(0x8cf297ec) == 0x7cc43c3c
  {
    assert AddShiftedLeft(0x8cf297ec, 13) == 0xdff017ec;
    SignedShiftRight7(0xdff017ec);
    assert XorShiftedRight(0xdff017ec, 7) == 0x204ff7c3;
    assert AddShiftedLeft(0x204ff7c3, 3) == 0x22cfb5db;
    SignedShiftRight17(0x22cfb5db);
    assert XorShiftedRight(0x22cfb5db, 17) == 0x22cfa4bc;
    assert AddShiftedLeft(0x22cfa4bc, 5) == 0x7cc43c3c;
  }

  /**
   * The finisher does not undo the difference: `getHash("12")` and
   * `getHash("21")` differ as well, although the finisher is not injective.
   */
  lemma HashOrderMatters(s: JString, t: JString)
    requires s == [0x31, 0x32]
    requires t == [0x32, 0x31]
    ensures Hash(s) == 1796605027
    ensures Hash(t) == 2093235260
    ensures Hash(s) != Hash(t)
  {
    AccumulatorsOfTwoOrders(s, t);
    FinishOfTwelve();
    FinishOfTwentyOne();
    HashFromSteps(s, 0x1deb2d6a, 0x94e9fb9d, -1796605027);
    HashFromSteps(t, 0x8cf297ec, 0x7cc43c3c, 2093235260);
  }

  /** The address prefix every server shares. */
  const Prefix: JString := [0x31, 0x39, 0x32, 0x2e, 0x31, 0x36, 0x38, 0x2e]

  /** The accumulator once the loop has run over the shared prefix. */
  lemma AccumulatorOfPrefix()
    ensures Accumulate(OffsetBasis, Prefix) == 0x0c6d8a2a
  {
    assert Prefix == ([0x31, 0x39, 0x32, 0x2e] + [0x31, 0x36, 0x38, 0x2e]);
    AccumulateFour(0x811c9dc5, 0x31, 0x39, 0x32, 0x2e);
    assert Step(0x811c9dc5, 0x31) == 0x340ca71c;
    assert Step(0x340ca71c, 0x39) == 0x14eb1f3f;
    assert Step(0x14eb1f3f, 0x32) == 0xfb21e177;
    assert Step(0xfb21e177, 0x2e) == 0xaf55bf1b;
    AccumulateFour(0xaf55bf1b, 0x31, 0x36, 0x38, 0x2e);
    assert Step(0xaf55bf1b, 0x31) == 0x2dfbef1e;
    assert Step(0x2dfbef1e, 0x36) == 0x8b997bf8;
    assert Step(0x8b997bf8, 0x38) == 0x829dcf40;
    assert Step(0x829dcf40, 0x2e) == 0x0c6d8a2a;
    AccumulateConcat(OffsetBasis, [0x31, 0x39, 0x32, 0x2e], [0x31, 0x36, 0x38, 0x2e]);
  }

  /** The accumulator once the loop has run over the address of server 0. */
  lemma AccumulatorOfServer0()
    ensures Accumulate(OffsetBasis, Server0) == 0x164fe12a
  {
    assert Server0 == Prefix + [0x31, 0x2e, 0x31, 0x3a, 0x38, 0x30, 0x30, 0x38];
    AccumulatorOfPrefix();
    AccumulateConcat(OffsetBasis, Prefix, [0x31, 0x2e, 0x31, 0x3a, 0x38, 0x30, 0x30, 0x38]);
    AccumulateFour(0x0c6d8a2a, 0x31, 0x2e, 0x31, 0x3a);
    assert Step(0x0c6d8a2a, 0x31) == 0xab706881;
    assert Step(0xab706881, 0x2e) == 0x90f4cb7d;
    assert Step(0x90f4cb7d, 0x31) == 0x7d5c08a4;
    assert Step(0x7d5c08a4, 0x3a) == 0xf5e190ba;
    AccumulateFour(0xf5e190ba, 0x38, 0x30, 0x30, 0x38);
    assert Step(0xf5e190ba, 0x38) == 0x94167ca6;
    assert Step(0x94167ca6, 0x30) == 0xb5662022;
    assert Step(0xb5662022, 0x30) == 0xa1c47c56;
    assert Step(0xa1c47c56, 0x38) == 0x164fe12a;
    AccumulateConcat(0x0c6d8a2a, [0x31, 0x2e, 0x31, 0x3a], [0x38, 0x30, 0x30, 0x38]);
  }

  /** The finisher applied to server 0's accumulator. */
  lemma FinishOfServer0()
    ensures Finish(0x164fe12a) == 0xbf1e8fd8
  {
    assert AddShiftedLeft(0x164fe12a, 13) == 0x1275212a;
    SignedShiftRight7(0x1275212a);
    assert XorShiftedRight(0x1275212a, 7) == 0x1251cb68;
    assert AddShiftedLeft(0x1251cb68, 3) == 0xa4e026a8;
    SignedShiftRight17(0xa4e026a8);
    assert XorShiftedRight(0xa4e026a8, 17) == 0x5b1ff4d8;
    assert AddShiftedLeft(0x5b1ff4d8, 5) == 0xbf1e8fd8;
  }

  /** The ring key of server 0 itself. */
  lemma HashOfServer0()
    ensures Hash(Server0) == 1088516136
  {
    AccumulatorOfServer0();
    FinishOfServer0();
    HashFromSteps(Server0, 0x164fe12a, 0xbf1e8fd8, -1088516136);
  }

  /** The last two loop passes of `server0&0`, then the finisher. */
  lemma FinishOfVirtual0_0()
    ensures Finish(Step(Step(0x164fe12a, 0x26), 0x30)) == 0xd03c2de7
  {
    assert Step(Step(0x164fe12a, 0x26), 0x30) == 0xb21aecbc;
    assert AddShiftedLeft(0xb21aecbc, 13) == 0x0fb26cbc;
    SignedShiftRight7(0x0fb26cbc);
    assert XorShiftedRight(0x0fb26cbc, 7) == 0x0fad0865;
    assert AddShiftedLeft(0x0fad0865, 3) == 0x8d154b8d;
    SignedShiftRight17(0x8d154b8d);
    assert XorShiftedRight(0x8d154b8d, 17) == 0x72ea8d07;
    assert AddShiftedLeft(0x72ea8d07, 5) == 0xd03c2de7;
  }

  /** The ring key of `server0&0`. */
  lemma HashOfVirtual0_0()
    ensures Hash(VirtualName(Server0, 0)) == 801362457
  {
    AccumulatorOfServer0();
    FinishOfVirtual0_0();
    HashOfVirtualName(Server0, 0, 0x164fe12a, 0x30, 0xd03c2de7, -801362457);
  }

  /** The last two loop passes of `server0&1`, then the finisher. */
  lemma FinishOfVirtual0_1()
    ensures Finish(Step(Step(0x164fe12a, 0x26), 0x31)) == 0x8b6430bd
  {
    assert Step(Step(0x164fe12a, 0x26), 0x31) == 0xb31aee4f;
    assert AddShiftedLeft(0xb31aee4f, 13) == 0x10e4ce4f;
    SignedShiftRight7(0x10e4ce4f);
    assert XorShiftedRight(0x10e4ce4f, 7) == 0x10c507d3;
    assert AddShiftedLeft(0x10c507d3, 3) == 0x96ed466b;
    SignedShiftRight17(0x96ed466b);
    assert XorShiftedRight(0x96ed466b, 17) == 0x69128d1d;
    assert AddShiftedLeft(0x69128d1d, 5) == 0x8b6430bd;
  }

  /** The ring key of `server0&1`. */
  lemma HashOfVirtual0_1()
    ensures Hash(VirtualName(Server0, 1)) == 1956368195
  {
    AccumulatorOfServer0();
    FinishOfVirtual0_1();
    HashOfVirtualName(Server0, 1, 0x164fe12a, 0x31, 0x8b6430bd, -1956368195);
  }

  /** The last two loop passes of `server0&2`, then the finisher. */
  lemma FinishOfVirtual0_2()
    ensures Finish(Step(Step(0x164fe12a, 0x26), 0x32)) == 0xe2d0a640
  {
    assert Step(Step(0x164fe12a, 0x26), 0x32) == 0xb41aefe2;
    assert AddShiftedLeft(0xb41aefe2, 13) == 0x12172fe2;
    SignedShiftRight7(0x12172fe2);
    assert XorShiftedRight(0x12172fe2, 7) == 0x123301bd;
    assert AddShiftedLeft(0x123301bd, 3) == 0xa3cb0fa5;
    SignedShiftRight17(0xa3cb0fa5);
    assert XorShiftedRight(0xa3cb0fa5, 17) == 0x5c34de40;
    assert AddShiftedLeft(0x5c34de40, 5) == 0xe2d0a640;
  }

  /** The ring key of `server0&2`. */
  lemma HashOfVirtual0_2()
    ensures Hash(VirtualName(Server0, 2)) == 489642432
  {
    AccumulatorOfServer0();
    FinishOfVirtual0_2();
    HashOfVirtualName(Server0, 2, 0x164fe12a, 0x32, 0xe2d0a640, -489642432);
  }

  /** The last two loop passes of `server0&3`, then the finisher. */
  lemma FinishOfVirtual0_3()
    ensures Finish(Step(Step(0x164fe12a, 0x26), 0x33)) == 0x743111fc
  {
    assert Step(Step(0x164fe12a, 0x26), 0x33) == 0xb51af175;
    assert AddShiftedLeft(0xb51af175, 13) == 0x13499175;
    SignedShiftRight7(0x13499175);
    assert XorShiftedRight(0x13499175, 7) == 0x136f0257;
    assert AddShiftedLeft(0x136f0257, 3) == 0xaee7150f;
    SignedShiftRight17(0xaee7150f);
    assert XorShiftedRight(0xaee7150f, 17) == 0x5118c27c;
    assert AddShiftedLeft(0x5118c27c, 5) == 0x743111fc;
  }

  /** The ring key of `server0&3`. */
  lemma HashOfVirtual0_3()
    ensures Hash(VirtualName(Server0, 3)) == 1949372924
  {
    AccumulatorOfServer0();
    FinishOfVirtual0_3();
    HashOfVirtualName(Server0, 3, 0x164fe12a, 0x33, 0x743111fc, 1949372924);
  }

  /** The last two loop passes of `server0&4`, then the finisher. */
  lemma FinishOfVirtual0_4()
    ensures Finish(Step(Step(0x164fe12a, 0x26), 0x34)) == 0xbfbf62cf
  {
    assert Step(Step(0x164fe12a, 0x26), 0x34) == 0xae1ae670;
    assert AddShiftedLeft(0xae1ae670, 13) == 0x0ae8e670;
    SignedShiftRight7(0x0ae8e670);
    assert XorShiftedRight(0x0ae8e670, 7) == 0x0afd37bc;
    assert AddShiftedLeft(0x0afd37bc, 3) == 0x62e6f59c;
    SignedShiftRight17(0x62e6f59c);
    assert XorShiftedRight(0x62e6f59c, 17) == 0x62e6c4ef;
    assert AddShiftedLeft(0x62e6c4ef, 5) == 0xbfbf62cf;
  }

  /** The ring key of `server0&4`. */
  lemma HashOfVirtual0_4()
    ensures Hash(VirtualName(Server0, 4)) == 1077976369
  {
    AccumulatorOfServer0();
    FinishOfVirtual0_4();
    HashOfVirtualName(Server0, 4, 0x164fe12a, 0x34, 0xbfbf62cf, -1077976369);
  }

  /** The last two loop passes of `server0&5`, then the finisher. */
  lemma FinishOfVirtual0_5()
    ensures Finish(Step(Step(0x164fe12a, 0x26), 0x35)) == 0xf007e9a4
  {
    assert Step(Step(0x164fe12a, 0x26), 0x35) == 0xaf1ae803;
    assert AddShiftedLeft(0xaf1ae803, 13) == 0x0c1b4803;
    SignedShiftRight7(0x0c1b4803);
    assert XorShiftedRight(0x0c1b4803, 7) == 0x0c037e93;
    assert AddShiftedLeft(0x0c037e93, 3) == 0x6c1f732b;
    SignedShiftRight17(0x6c1f732b);
    assert XorShiftedRight(0x6c1f732b, 17) == 0x6c1f4524;
    assert AddShiftedLeft(0x6c1f4524, 5) == 0xf007e9a4;
  }

  /** The ring key of `server0&5`. */
  lemma HashOfVirtual0_5()
    ensures Hash(VirtualName(Server0, 5)) == 267916892
  {
    AccumulatorOfServer0();
    FinishOfVirtual0_5();
    HashOfVirtualName(Server0, 5, 0x164fe12a, 0x35, 0xf007e9a4, -267916892);
  }

  /** The last two loop passes of `server0&6`, then the finisher. */
  lemma FinishOfVirtual0_6()
    ensures Finish(Step(Step(0x164fe12a, 0x26), 0x36)) == 0x7a2f9185
  {
    assert Step(Step(0x164fe12a, 0x26), 0x36) == 0xb01ae996;
    assert AddShiftedLeft(0xb01ae996, 13) == 0x0d4da996;
    SignedShiftRight7(0x0d4da996);
    assert XorShiftedRight(0x0d4da996, 7) == 0x0d5732c5;
    assert AddShiftedLeft(0x0d5732c5, 3) == 0x7810c8ed;
    SignedShiftRight17(0x7810c8ed);
    assert XorShiftedRight(0x7810c8ed, 17) == 0x7810f4e5;
    assert AddShiftedLeft(0x7810f4e5, 5) == 0x7a2f9185;
  }

  /** The ring key of `server0&6`. */
  lemma HashOfVirtual0_6()
    ensures Hash(VirtualName(Server0, 6)) == 2049937797
  {
    AccumulatorOfServer0();
    FinishOfVirtual0_6();
    HashOfVirtualName(Server0, 6, 0x164fe12a, 0x36, 0x7a2f9185, 2049937797);
  }

  /** The last two loop passes of `server0&7`, then the finisher. */
  lemma FinishOfVirtual0_7()
    ensures Finish(Step(Step(0x164fe12a, 0x26), 0x37)) == 0x0bcf4395
  {
    assert Step(Step(0x164fe12a, 0x26), 0x37) == 0xb11aeb29;
    assert AddShiftedLeft(0xb11aeb29, 13) == 0x0e800b29;
    SignedShiftRight7(0x0e800b29);
    assert XorShiftedRight(0x0e800b29, 7) == 0x0e9d0b3f;
    assert AddShiftedLeft(0x0e9d0b3f, 3) == 0x83856537;
    SignedShiftRight17(0x83856537);
    assert XorShiftedRight(0x83856537, 17) == 0x7c7aa4f5;
    assert AddShiftedLeft(0x7c7aa4f5, 5) == 0x0bcf4395;
  }

  /** The ring key of `server0&7`. */
  lemma HashOfVirtual0_7()
    ensures Hash(VirtualName(Server0, 7)) == 198132629
  {
    AccumulatorOfServer0();
    FinishOfVirtual0_7();
    HashOfVirtualName(Server0, 7, 0x164fe12a, 0x37, 0x0bcf4395, 198132629);
  }

  /** The last two loop passes of `server0&8`, then the finisher. */
  lemma FinishOfVirtual0_8()
    ensures Finish(Step(Step(0x164fe12a, 0x26), 0x38)) == 0x73d4abed
  {
    assert Step(Step(0x164fe12a, 0x26), 0x38) == 0xba1af954;
    assert AddShiftedLeft(0xba1af954, 13) == 0x19457954;
    SignedShiftRight7(0x19457954);
    assert XorShiftedRight(0x19457954, 7) == 0x1977f3a6;
    assert AddShiftedLeft(0x1977f3a6, 3) == 0xe53790d6;
    SignedShiftRight17(0xe53790d6);
    assert XorShiftedRight(0xe53790d6, 17) == 0x1ac8624d;
    assert AddShiftedLeft(0x1ac8624d, 5) == 0x73d4abed;
  }

  /** The ring key of `server0&8`. */
  lemma HashOfVirtual0_8()
    ensures Hash(VirtualName(Server0, 8)) == 1943317485
  {
    AccumulatorOfServer0();
    FinishOfVirtual0_8();
    HashOfVirtualName(Server0, 8, 0x164fe12a, 0x38, 0x73d4abed, 1943317485);
  }

  /** The last two loop passes of `server0&9`, then the finisher. */
  lemma FinishOfVirtual0_9()
    ensures Finish(Step(Step(0x164fe12a, 0x26), 0x39)) == 0x8808634c
  {
    assert Step(Step(0x164fe12a, 0x26), 0x39) == 0xbb1afae7;
    assert AddShiftedLeft(0xbb1afae7, 13) == 0x1a77dae7;
    SignedShiftRight7(0x1a77dae7);
    assert XorShiftedRight(0x1a77dae7, 7) == 0x1a433552;
    assert AddShiftedLeft(0x1a433552, 3) == 0xec5cdfe2;
    SignedShiftRight17(0xec5cdfe2);
    assert XorShiftedRight(0xec5cdfe2, 17) == 0x13a329cc;
    assert AddShiftedLeft(0x13a329cc, 5) == 0x8808634c;
  }

  /** The ring key of `server0&9`. */
  lemma HashOfVirtual0_9()
    ensures Hash(VirtualName(Server0, 9)) == 2012716212
  {
    AccumulatorOfServer0();
    FinishOfVirtual0_9();
    HashOfVirtualName(Server0, 9, 0x164fe12a, 0x39, 0x8808634c, -2012716212);
  }

  /** Every virtual node of server 0 hashes into the range of the ring's keys. */
  lemma VirtualHashesOfServer0(i: nat)
    requires i < VirtualNodesNumber
    ensures MinNodeHash <= Hash(VirtualName(Server0, i)) <= MaxNodeHash
  {
    if i == 0 {
      HashOfVirtual0_0();
    } else if i == 1 {
      HashOfVirtual0_1();
    } else if i == 2 {
      HashOfVirtual0_2();
    } else if i == 3 {
      HashOfVirtual0_3();
    } else if i == 4 {
      HashOfVirtual0_4();
    } else if i == 5 {
      HashOfVirtual0_5();
    } else if i == 6 {
      HashOfVirtual0_6();
    } else if i == 7 {
      HashOfVirtual0_7();
    } else if i == 8 {
      HashOfVirtual0_8();
    } else {
      HashOfVirtual0_9();
    }
  }

  /** The accumulator once the loop has run over the address of server 1. */
  lemma AccumulatorOfServer1()
    ensures Accumulate(OffsetBasis, Server1) == 0xacc2b092
  {
    assert Server1 == Prefix + [0x31, 0x2e, 0x32, 0x3a, 0x38, 0x30, 0x30, 0x39];
    AccumulatorOfPrefix();
    AccumulateConcat(OffsetBasis, Prefix, [0x31, 0x2e, 0x32, 0x3a, 0x38, 0x30, 0x30, 0x39]);
    AccumulateFour(0x0c6d8a2a, 0x31, 0x2e, 0x32, 0x3a);
    assert Step(0x0c6d8a2a, 0x31) == 0xab706881;
    assert Step(0xab706881, 0x2e) == 0x90f4cb7d;
    assert Step(0x90f4cb7d, 0x32) == 0x805c0d5d;
    assert Step(0x805c0d5d, 0x3a) == 0x77e91925;
    AccumulateFour(0x77e91925, 0x38, 0x30, 0x30, 0x39);
    assert Step(0x77e91925, 0x38) == 0xe0f288a7;
    assert Step(0xe0f288a7, 0x30) == 0xb4cd05b5;
    assert Step(0xb4cd05b5, 0x30) == 0x23bfb05f;
    assert Step(0x23bfb05f, 0x39) == 0xacc2b092;
    AccumulateConcat(0x0c6d8a2a, [0x31, 0x2e, 0x32, 0x3a], [0x38, 0x30, 0x30, 0x39]);
  }

  /** The finisher applied to server 1's accumulator. */
  lemma FinishOfServer1()
    ensures Finish(0xacc2b092) == 0x44e15e45
  {
    assert AddShiftedLeft(0xacc2b092, 13) == 0x02d4f092;
    SignedShiftRight7(0x02d4f092);
    assert XorShiftedRight(0x02d4f092, 7) == 0x02d15973;
    assert AddShiftedLeft(0x02d15973, 3) == 0x195c250b;
    SignedShiftRight17(0x195c250b);
    assert XorShiftedRight(0x195c250b, 17) == 0x195c29a5;
    assert AddShiftedLeft(0x195c29a5, 5) == 0x44e15e45;
  }

  /** The ring key of server 1 itself. */
  lemma HashOfServer1()
    ensures Hash(Server1) == 1155620421
  {
    AccumulatorOfServer1();
    FinishOfServer1();
    HashFromSteps(Server1, 0xacc2b092, 0x44e15e45, 1155620421);
  }

  /** The last two loop passes of `server1&0`, then the finisher. */
  lemma FinishOfVirtual1_0()
    ensures Finish(Step(Step(0xacc2b092, 0x26), 0x30)) == 0xb9531418
  {
    assert Step(Step(0xacc2b092, 0x26), 0x30) == 0xcd785b04;
    assert AddShiftedLeft(0xcd785b04, 13) == 0xd8d8db04;
    SignedShiftRight7(0xd8d8db04);
    assert XorShiftedRight(0xd8d8db04, 7) == 0x27696ab2;
    assert AddShiftedLeft(0x27696ab2, 3) == 0x62b4c042;
    SignedShiftRight17(0x62b4c042);
    assert XorShiftedRight(0x62b4c042, 17) == 0x62b4f118;
    assert AddShiftedLeft(0x62b4f118, 5) == 0xb9531418;
  }

  /** The ring key of `server1&0`. */
  lemma HashOfVirtual1_0()
    ensures Hash(VirtualName(Server1, 0)) == 1185737704
  {
    AccumulatorOfServer1();
    FinishOfVirtual1_0();
    HashOfVirtualName(Server1, 0, 0xacc2b092, 0x30, 0xb9531418, -1185737704);
  }

  /** The last two loop passes of `server1&1`, then the finisher. */
  lemma FinishOfVirtual1_1()
    ensures Finish(Step(Step(0xacc2b092, 0x26), 0x31)) == 0xcace1bc2
  {
    assert Step(Step(0xacc2b092, 0x26), 0x31) == 0xce785c97;
    assert AddShiftedLeft(0xce785c97, 13) == 0xda0b3c97;
    SignedShiftRight7(0xda0b3c97);
    assert XorShiftedRight(0xda0b3c97, 7) == 0x25bf2aee;
    assert AddShiftedLeft(0x25bf2aee, 3) == 0x53b8825e;
    SignedShiftRight17(0x53b8825e);
    assert XorShiftedRight(0x53b8825e, 17) == 0x53b8ab82;
    assert AddShiftedLeft(0x53b8ab82, 5) == 0xcace1bc2;
  }

  /** The ring key of `server1&1`. */
  lemma HashOfVirtual1_1()
    ensures Hash(VirtualName(Server1, 1)) == 892462142
  {
    AccumulatorOfServer1();
    FinishOfVirtual1_1();
    HashOfVirtualName(Server1, 1, 0xacc2b092, 0x31, 0xcace1bc2, -892462142);
  }

  /** The last two loop passes of `server1&2`, then the finisher. */
  lemma FinishOfVirtual1_2()
    ensures Finish(Step(Step(0xacc2b092, 0x26), 0x32)) == 0x66506013
  {
    assert Step(Step(0xacc2b092, 0x26), 0x32) == 0xcf785e2a;
    assert AddShiftedLeft(0xcf785e2a, 13) == 0xdb3d9e2a;
    SignedShiftRight7(0xdb3d9e2a);
    assert XorShiftedRight(0xdb3d9e2a, 7) == 0x248be516;
    assert AddShiftedLeft(0x248be516, 3) == 0x48eb0dc6;
    SignedShiftRight17(0x48eb0dc6);
    assert XorShiftedRight(0x48eb0dc6, 17) == 0x48eb29b3;
    assert AddShiftedLeft(0x48eb29b3, 5) == 0x66506013;
  }

  /** The ring key of `server1&2`. */
  lemma HashOfVirtual1_2()
    ensures Hash(VirtualName(Server1, 2)) == 1716543507
  {
    AccumulatorOfServer1();
    FinishOfVirtual1_2();
    HashOfVirtualName(Server1, 2, 0xacc2b092, 0x32, 0x66506013, 1716543507);
  }

  /** The last two loop passes of `server1&3`, then the finisher. */
  lemma FinishOfVirtual1_3()
    ensures Finish(Step(Step(0xacc2b092, 0x26), 0x33)) == 0x9490665a
  {
    assert Step(Step(0xacc2b092, 0x26), 0x33) == 0xd0785fbd;
    assert AddShiftedLeft(0xd0785fbd, 13) == 0xdc6fffbd;
    SignedShiftRight7(0xdc6fffbd);
    assert XorShiftedRight(0xdc6fffbd, 7) == 0x23d72042;
    assert AddShiftedLeft(0x23d72042, 3) == 0x42902252;
    SignedShiftRight17(0x42902252);
    assert XorShiftedRight(0x42902252, 17) == 0x4290031a;
    assert AddShiftedLeft(0x4290031a, 5) == 0x9490665a;
  }

  /** The ring key of `server1&3`. */
  lemma HashOfVirtual1_3()
    ensures Hash(VirtualName(Server1, 3)) == 1802475942
  {
    AccumulatorOfServer1();
    FinishOfVirtual1_3();
    HashOfVirtualName(Server1, 3, 0xacc2b092, 0x33, 0x9490665a, -1802475942);
  }

  /** The last two loop passes of `server1&4`, then the finisher. */
  lemma FinishOfVirtual1_4()
    ensures Finish(Step(Step(0xacc2b092, 0x26), 0x34)) == 0x5aea3c09
  {
    assert Step(Step(0xacc2b092, 0x26), 0x34) == 0xc97854b8;
    assert AddShiftedLeft(0xc97854b8, 13) == 0xd40f54b8;
    SignedShiftRight7(0xd40f54b8);
    assert XorShiftedRight(0xd40f54b8, 7) == 0x2ba74a11;
    assert AddShiftedLeft(0x2ba74a11, 3) == 0x88e19a99;
    SignedShiftRight17(0x88e19a99);
    assert XorShiftedRight(0x88e19a99, 17) == 0x771e5ee9;
    assert AddShiftedLeft(0x771e5ee9, 5) == 0x5aea3c09;
  }

  /** The ring key of `server1&4`. */
  lemma HashOfVirtual1_4()
    ensures Hash(VirtualName(Server1, 4)) == 1525300233
  {
    AccumulatorOfServer1();
    FinishOfVirtual1_4();
    HashOfVirtualName(Server1, 4, 0xacc2b092, 0x34, 0x5aea3c09, 1525300233);
  }

  /** The last two loop passes of `server1&5`, then the finisher. */
  lemma FinishOfVirtual1_5()
    ensures Finish(Step(Step(0xacc2b092, 0x26), 0x35)) == 0x351f0f1d
  {
    assert Step(Step(0xacc2b092, 0x26), 0x35) == 0xca78564b;
    assert AddShiftedLeft(0xca78564b, 13) == 0xd541b64b;
    SignedShiftRight7(0xd541b64b);
    assert XorShiftedRight(0xd541b64b, 7) == 0x2aeb3527;
    assert AddShiftedLeft(0x2aeb3527, 3) == 0x8244de5f;
    SignedShiftRight17(0x8244de5f);
    assert XorShiftedRight(0x8244de5f, 17) == 0x7dbb1f7d;
    assert AddShiftedLeft(0x7dbb1f7d, 5) == 0x351f0f1d;
  }

  /** The ring key of `server1&5`. */
  lemma HashOfVirtual1_5()
    ensures Hash(VirtualName(Server1, 5)) == 891227933
  {
    AccumulatorOfServer1();
    FinishOfVirtual1_5();
    HashOfVirtualName(Server1, 5, 0xacc2b092, 0x35, 0x351f0f1d, 891227933);
  }

  /** The last two loop passes of `server1&6`, then the finisher. */
  lemma FinishOfVirtual1_6()
    ensures Finish(Step(Step(0xacc2b092, 0x26), 0x36)) == 0x8cb92849
  {
    assert Step(Step(0xacc2b092, 0x26), 0x36) == 0xcb7857de;
    assert AddShiftedLeft(0xcb7857de, 13) == 0xd67417de;
    SignedShiftRight7(0xd67417de);
    assert XorShiftedRight(0xd67417de, 7) == 0x29d8fff1;
    assert AddShiftedLeft(0x29d8fff1, 3) == 0x78a0ff79;
    SignedShiftRight17(0x78a0ff79);
    assert XorShiftedRight(0x78a0ff79, 17) == 0x78a0c329;
    assert AddShiftedLeft(0x78a0c329, 5) == 0x8cb92849;
  }

  /** The ring key of `server1&6`. */
  lemma HashOfVirtual1_6()
    ensures Hash(VirtualName(Server1, 6)) == 1934022583
  {
    AccumulatorOfServer1();
    FinishOfVirtual1_6();
    HashOfVirtualName(Server1, 6, 0xacc2b092, 0x36, 0x8cb92849, -1934022583);
  }

  /** The last two loop passes of `server1&7`, then the finisher. */
  lemma FinishOfVirtual1_7()
    ensures Finish(Step(Step(0xacc2b092, 0x26), 0x37)) == 0x72ad8bf2
  {
    assert Step(Step(0xacc2b092, 0x26), 0x37) == 0xcc785971;
    assert AddShiftedLeft(0xcc785971, 13) == 0xd7a67971;
    SignedShiftRight7(0xd7a67971);
    assert XorShiftedRight(0xd7a67971, 7) == 0x28093583;
    assert AddShiftedLeft(0x28093583, 3) == 0x6852e19b;
    SignedShiftRight17(0x6852e19b);
    assert XorShiftedRight(0x6852e19b, 17) == 0x6852d5b2;
    assert AddShiftedLeft(0x6852d5b2, 5) == 0x72ad8bf2;
  }

  /** The ring key of `server1&7`. */
  lemma HashOfVirtual1_7()
    ensures Hash(VirtualName(Server1, 7)) == 1923976178
  {
    AccumulatorOfServer1();
    FinishOfVirtual1_7();
    HashOfVirtualName(Server1, 7, 0xacc2b092, 0x37, 0x72ad8bf2, 1923976178);
  }

  /** The last two loop passes of `server1&8`, then the finisher. */
  lemma FinishOfVirtual1_8()
    ensures Finish(Step(Step(0xacc2b092, 0x26), 0x38)) == 0x51a083ea
  {
    assert Step(Step(0xacc2b092, 0x26), 0x38) == 0xc5784e6c;
    assert AddShiftedLeft(0xc5784e6c, 13) == 0xcf45ce6c;
    SignedShiftRight7(0xcf45ce6c);
    assert XorShiftedRight(0xcf45ce6c, 7) == 0x30db45f0;
    assert AddShiftedLeft(0x30db45f0, 3) == 0xb7b57570;
    SignedShiftRight17(0xb7b57570);
    assert XorShiftedRight(0xb7b57570, 17) == 0x484aaeaa;
    assert AddShiftedLeft(0x484aaeaa, 5) == 0x51a083ea;
  }

  /** The ring key of `server1&8`. */
  lemma HashOfVirtual1_8()
    ensures Hash(VirtualName(Server1, 8)) == 1369474026
  {
    AccumulatorOfServer1();
    FinishOfVirtual1_8();
    HashOfVirtualName(Server1, 8, 0xacc2b092, 0x38, 0x51a083ea, 1369474026);
  }

  /** The last two loop passes of `server1&9`, then the finisher. */
  lemma FinishOfVirtual1_9()
    ensures Finish(Step(Step(0xacc2b092, 0x26), 0x39)) == 0x7d6189cf
  {
    assert Step(Step(0xacc2b092, 0x26), 0x39) == 0xc6784fff;
    assert AddShiftedLeft(0xc6784fff, 13) == 0xd0782fff;
    SignedShiftRight7(0xd0782fff);
    assert XorShiftedRight(0xd0782fff, 7) == 0x2fd8dfa0;
    assert AddShiftedLeft(0x2fd8dfa0, 3) == 0xae9fdca0;
    SignedShiftRight17(0xae9fdca0);
    assert XorShiftedRight(0xae9fdca0, 17) == 0x51600bef;
    assert AddShiftedLeft(0x51600bef, 5) == 0x7d6189cf;
  }

  /** The ring key of `server1&9`. */
  lemma HashOfVirtual1_9()
    ensures Hash(VirtualName(Server1, 9)) == 2103544271
  {
    AccumulatorOfServer1();
    FinishOfVirtual1_9();
    HashOfVirtualName(Server1, 9, 0xacc2b092, 0x39, 0x7d6189cf, 2103544271);
  }

  /** Every virtual node of server 1 hashes into the range of the ring's keys. */
  lemma VirtualHashesOfServer1(i: nat)
    requires i < VirtualNodesNumber
    ensures MinNodeHash <= Hash(VirtualName(Server1, i)) <= MaxNodeHash
  {
    if i == 0 {
      HashOfVirtual1_0();
    } else if i == 1 {
      HashOfVirtual1_1();
    } else if i == 2 {
      HashOfVirtual1_2();
    } else if i == 3 {
      HashOfVirtual1_3();
    } else if i == 4 {
      HashOfVirtual1_4();
    } else if i == 5 {
      HashOfVirtual1_5();
    } else if i == 6 {
      HashOfVirtual1_6();
    } else if i == 7 {
      HashOfVirtual1_7();
    } else if i == 8 {
      HashOfVirtual1_8();
    } else {
      HashOfVirtual1_9();
    }
  }

  /** The accumulator once the loop has run over the address of server 2. */
  lemma AccumulatorOfServer2()
    ensures Accumulate(OffsetBasis, Server2) == 0xfacb5d53
  {
    assert Server2 == Prefix + [0x31, 0x30, 0x31, 0x2e, 0x31, 0x3a, 0x38, 0x30, 0x30, 0x38];
    AccumulatorOfPrefix();
    AccumulateConcat(OffsetBasis, Prefix, [0x31, 0x30, 0x31, 0x2e, 0x31, 0x3a, 0x38, 0x30, 0x30, 0x38]);
    AccumulateFour(0x0c6d8a2a, 0x31, 0x30, 0x31, 0x2e);
    assert Step(0x0c6d8a2a, 0x31) == 0xab706881;
    assert Step(0xab706881, 0x30) == 0x92f4cea3;
    assert Step(0x92f4cea3, 0x31) == 0xe9612fd6;
    assert Step(0xe9612fd6, 0x2e) == 0x5bfe8368;
    AccumulateFour(0x5bfe8368, 0x31, 0x3a, 0x38, 0x30);
    assert Step(0x5bfe8368, 0x31) == 0x2aa8c51b;
    assert Step(0x2aa8c51b, 0x3a) == 0x48ae52f3;
    assert Step(0x48ae52f3, 0x38) == 0x356c5591;
    assert Step(0x356c5591, 0x30) == 0xba8acc73;
    AccumulateConcat(0x0c6d8a2a, [0x31, 0x30, 0x31, 0x2e], [0x31, 0x3a, 0x38, 0x30]);
    AccumulateSnoc(0x0c6d8a2a, ([0x31, 0x30, 0x31, 0x2e] + [0x31, 0x3a, 0x38, 0x30]), 0x30);
    assert Step(0xba8acc73, 0x30) == 0xeb7f8d79;
    AccumulateSnoc(0x0c6d8a2a, (([0x31, 0x30, 0x31, 0x2e] + [0x31, 0x3a, 0x38, 0x30]) + [0x30]), 0x38);
    assert Step(0xeb7f8d79, 0x38) == 0xfacb5d53;
  }

  /** The finisher applied to server 2's accumulator. */
  lemma FinishOfServer2()
    ensures Finish(0xfacb5d53) == 0xd2f4ef93
  {
    assert AddShiftedLeft(0xfacb5d53, 13) == 0x6675bd53;
    SignedShiftRight7(0x6675bd53);
    assert XorShiftedRight(0x6675bd53, 7) == 0x66b95629;
    assert AddShiftedLeft(0x66b95629, 3) == 0x9c840771;
    SignedShiftRight17(0x9c840771);
    assert XorShiftedRight(0x9c840771, 17) == 0x637bc933;
    assert AddShiftedLeft(0x637bc933, 5) == 0xd2f4ef93;
  }

  /** The ring key of server 2 itself. */
  lemma HashOfServer2()
    ensures Hash(Server2) == 755699821
  {
    AccumulatorOfServer2();
    FinishOfServer2();
    HashFromSteps(Server2, 0xfacb5d53, 0xd2f4ef93, -755699821);
  }

  /** The last two loop passes of `server2&0`, then the finisher. */
  lemma FinishOfVirtual2_0()
    ensures Finish(Step(Step(0xfacb5d53, 0x26), 0x30)) == 0x85231a3c
  {
    assert Step(Step(0xfacb5d53, 0x26), 0x30) == 0xd0dcfdcd;
    assert AddShiftedLeft(0xd0dcfdcd, 13) == 0x70969dcd;
    SignedShiftRight7(0x70969dcd);
    assert XorShiftedRight(0x70969dcd, 7) == 0x7077b0f6;
    assert AddShiftedLeft(0x7077b0f6, 3) == 0xf43538a6;
    SignedShiftRight17(0xf43538a6);
    assert XorShiftedRight(0xf43538a6, 17) == 0x0bcac2bc;
    assert AddShiftedLeft(0x0bcac2bc, 5) == 0x85231a3c;
  }

  /** The ring key of `server2&0`. */
  lemma HashOfVirtual2_0()
    ensures Hash(VirtualName(Server2, 0)) == 2061297092
  {
    AccumulatorOfServer2();
    FinishOfVirtual2_0();
    HashOfVirtualName(Server2, 0, 0xfacb5d53, 0x30, 0x85231a3c, -2061297092);
  }

  /** The last two loop passes of `server2&1`, then the finisher. */
  lemma FinishOfVirtual2_1()
    ensures Finish(Step(Step(0xfacb5d53, 0x26), 0x31)) == 0x601973fb
  {
    assert Step(Step(0xfacb5d53, 0x26), 0x31) == 0xcfdcfc3a;
    assert AddShiftedLeft(0xcfdcfc3a, 13) == 0x6f643c3a;
    SignedShiftRight7(0x6f643c3a);
    assert XorShiftedRight(0x6f643c3a, 7) == 0x6fbaf442;
    assert AddShiftedLeft(0x6fbaf442, 3) == 0xed929652;
    SignedShiftRight17(0xed929652);
    assert XorShiftedRight(0xed929652, 17) == 0x126d609b;
    assert AddShiftedLeft(0x126d609b, 5) == 0x601973fb;
  }

  /** The ring key of `server2&1`. */
  lemma HashOfVirtual2_1()
    ensures Hash(VirtualName(Server2, 1)) == 1612280827
  {
    AccumulatorOfServer2();
    FinishOfVirtual2_1();
    HashOfVirtualName(Server2, 1, 0xfacb5d53, 0x31, 0x601973fb, 1612280827);
  }

  /** The last two loop passes of `server2&2`, then the finisher. */
  lemma FinishOfVirtual2_2()
    ensures Finish(Step(Step(0xfacb5d53, 0x26), 0x32)) == 0x4e32c46f
  {
    assert Step(Step(0xfacb5d53, 0x26), 0x32) == 0xcedcfaa7;
    assert AddShiftedLeft(0xcedcfaa7, 13) == 0x6e31daa7;
    SignedShiftRight7(0x6e31daa7);
    assert XorShiftedRight(0x6e31daa7, 7) == 0x6eedb912;
    assert AddShiftedLeft(0x6eedb912, 3) == 0xe65b81a2;
    SignedShiftRight17(0xe65b81a2);
    assert XorShiftedRight(0xe65b81a2, 17) == 0x19a4728f;
    assert AddShiftedLeft(0x19a4728f, 5) == 0x4e32c46f;
  }

  /** The ring key of `server2&2`. */
  lemma HashOfVirtual2_2()
    ensures Hash(VirtualName(Server2, 2)) == 1311949935
  {
    AccumulatorOfServer2();
    FinishOfVirtual2_2();
    HashOfVirtualName(Server2, 2, 0xfacb5d53, 0x32, 0x4e32c46f, 1311949935);
  }

  /** The last two loop passes of `server2&3`, then the finisher. */
  lemma FinishOfVirtual2_3()
    ensures Finish(Step(Step(0xfacb5d53, 0x26), 0x33)) == 0x8749591b
  {
    assert Step(Step(0xfacb5d53, 0x26), 0x33) == 0xcddcf914;
    assert AddShiftedLeft(0xcddcf914, 13) == 0x6cff7914;
    SignedShiftRight7(0x6cff7914);
    assert XorShiftedRight(0x6cff7914, 7) == 0x6c2687e6;
    assert AddShiftedLeft(0x6c2687e6, 3) == 0xcd5ac716;
    SignedShiftRight17(0xcd5ac716);
    assert XorShiftedRight(0xcd5ac716, 17) == 0x32a521bb;
    assert AddShiftedLeft(0x32a521bb, 5) == 0x8749591b;
  }

  /** The ring key of `server2&3`. */
  lemma HashOfVirtual2_3()
    ensures Hash(VirtualName(Server2, 3)) == 2025236197
  {
    AccumulatorOfServer2();
    FinishOfVirtual2_3();
    HashOfVirtualName(Server2, 3, 0xfacb5d53, 0x33, 0x8749591b, -2025236197);
  }

  /** The last two loop passes of `server2&4`, then the finisher. */
  lemma FinishOfVirtual2_4()
    ensures Finish(Step(Step(0xfacb5d53, 0x26), 0x34)) == 0xbe347809
  {
    assert Step(Step(0xfacb5d53, 0x26), 0x34) == 0xccdcf781;
    assert AddShiftedLeft(0xccdcf781, 13) == 0x6bcd1781;
    SignedShiftRight7(0x6bcd1781);
    assert XorShiftedRight(0x6bcd1781, 7) == 0x6b1a8dae;
    assert AddShiftedLeft(0x6b1a8dae, 3) == 0xc3eefb1e;
    SignedShiftRight17(0xc3eefb1e);
    assert XorShiftedRight(0xc3eefb1e, 17) == 0x3c111ae9;
    assert AddShiftedLeft(0x3c111ae9, 5) == 0xbe347809;
  }

  /** The ring key of `server2&4`. */
  lemma HashOfVirtual2_4()
    ensures Hash(VirtualName(Server2, 4)) == 1103857655
  {
    AccumulatorOfServer2();
    FinishOfVirtual2_4();
    HashOfVirtualName(Server2, 4, 0xfacb5d53, 0x34, 0xbe347809, -1103857655);
  }

  /** The last two loop passes of `server2&5`, then the finisher. */
  lemma FinishOfVirtual2_5()
    ensures Finish(Step(Step(0xfacb5d53, 0x26), 0x35)) == 0xa9bfb3c8
  {
    assert Step(Step(0xfacb5d53, 0x26), 0x35) == 0xcbdcf5ee;
    assert AddShiftedLeft(0xcbdcf5ee, 13) == 0x6a9ab5ee;
    SignedShiftRight7(0x6a9ab5ee);
    assert XorShiftedRight(0x6a9ab5ee, 7) == 0x6a4f8085;
    assert AddShiftedLeft(0x6a4f8085, 3) == 0xbccb84ad;
    SignedShiftRight17(0xbccb84ad);
    assert XorShiftedRight(0xbccb84ad, 17) == 0x43345ac8;
    assert AddShiftedLeft(0x43345ac8, 5) == 0xa9bfb3c8;
  }

  /** The ring key of `server2&5`. */
  lemma HashOfVirtual2_5()
    ensures Hash(VirtualName(Server2, 5)) == 1447054392
  {
    AccumulatorOfServer2();
    FinishOfVirtual2_5();
    HashOfVirtualName(Server2, 5, 0xfacb5d53, 0x35, 0xa9bfb3c8, -1447054392);
  }

  /** The last two loop passes of `server2&6`, then the finisher. */
  lemma FinishOfVirtual2_6()
    ensures Finish(Step(Step(0xfacb5d53, 0x26), 0x36)) == 0x56a060cc
  {
    assert Step(Step(0xfacb5d53, 0x26), 0x36) == 0xcadcf45b;
    assert AddShiftedLeft(0xcadcf45b, 13) == 0x6968545b;
    SignedShiftRight7(0x6968545b);
    assert XorShiftedRight(0x6968545b, 7) == 0x69ba84f3;
    assert AddShiftedLeft(0x69ba84f3, 3) == 0xb78eac8b;
    SignedShiftRight17(0xb78eac8b);
    assert XorShiftedRight(0xb78eac8b, 17) == 0x4871774c;
    assert AddShiftedLeft(0x4871774c, 5) == 0x56a060cc;
  }

  /** The ring key of `server2&6`. */
  lemma HashOfVirtual2_6()
    ensures Hash(VirtualName(Server2, 6)) == 1453351116
  {
    AccumulatorOfServer2();
    FinishOfVirtual2_6();
    HashOfVirtualName(Server2, 6, 0xfacb5d53, 0x36, 0x56a060cc, 1453351116);
  }

  /** The last two loop passes of `server2&7`, then the finisher. */
  lemma FinishOfVirtual2_7()
    ensures Finish(Step(Step(0xfacb5d53, 0x26), 0x37)) == 0x4da50e1c
  {
    assert Step(Step(0xfacb5d53, 0x26), 0x37) == 0xc9dcf2c8;
    assert AddShiftedLeft(0xc9dcf2c8, 13) == 0x6835f2c8;
    SignedShiftRight7(0x6835f2c8);
    assert XorShiftedRight(0x6835f2c8, 7) == 0x68e5992d;
    assert AddShiftedLeft(0x68e5992d, 3) == 0xb0126295;
    SignedShiftRight17(0xb0126295);
    assert XorShiftedRight(0xb0126295, 17) == 0x4fedba9c;
    assert AddShiftedLeft(0x4fedba9c, 5) == 0x4da50e1c;
  }

  /** The ring key of `server2&7`. */
  lemma HashOfVirtual2_7()
    ensures Hash(VirtualName(Server2, 7)) == 1302662684
  {
    AccumulatorOfServer2();
    FinishOfVirtual2_7();
    HashOfVirtualName(Server2, 7, 0xfacb5d53, 0x37, 0x4da50e1c, 1302662684);
  }

  /** The last two loop passes of `server2&8`, then the finisher. */
  lemma FinishOfVirtual2_8()
    ensures Finish(Step(Step(0xfacb5d53, 0x26), 0x38)) == 0x92785012
  {
    assert Step(Step(0xfacb5d53, 0x26), 0x38) == 0xc8dcf135;
    assert AddShiftedLeft(0xc8dcf135, 13) == 0x67039135;
    SignedShiftRight7(0x67039135);
    assert XorShiftedRight(0x67039135, 7) == 0x67cd9617;
    assert AddShiftedLeft(0x67cd9617, 3) == 0xa63a46cf;
    SignedShiftRight17(0xa63a46cf);
    assert XorShiftedRight(0xa63a46cf, 17) == 0x59c595d2;
    assert AddShiftedLeft(0x59c595d2, 5) == 0x92785012;
  }

  /** The ring key of `server2&8`. */
  lemma HashOfVirtual2_8()
    ensures Hash(VirtualName(Server2, 8)) == 1837608942
  {
    AccumulatorOfServer2();
    FinishOfVirtual2_8();
    HashOfVirtualName(Server2, 8, 0xfacb5d53, 0x38, 0x92785012, -1837608942);
  }

  /** The last two loop passes of `server2&9`, then the finisher. */
  lemma FinishOfVirtual2_9()
    ensures Finish(Step(Step(0xfacb5d53, 0x26), 0x39)) == 0xb4389d52
  {
    assert Step(Step(0xfacb5d53, 0x26), 0x39) == 0xc7dcefa2;
    assert AddShiftedLeft(0xc7dcefa2, 13) == 0x65d12fa2;
    SignedShiftRight7(0x65d12fa2);
    assert XorShiftedRight(0x65d12fa2, 7) == 0x651a8dfd;
    assert AddShiftedLeft(0x651a8dfd, 3) == 0x8deefde5;
    SignedShiftRight17(0x8deefde5);
    assert XorShiftedRight(0x8deefde5, 17) == 0x72113b12;
    assert AddShiftedLeft(0x72113b12, 5) == 0xb4389d52;
  }

  /** The ring key of `server2&9`. */
  lemma HashOfVirtual2_9()
    ensures Hash(VirtualName(Server2, 9)) == 1271358126
  {
    AccumulatorOfServer2();
    FinishOfVirtual2_9();
    HashOfVirtualName(Server2, 9, 0xfacb5d53, 0x39, 0xb4389d52, -1271358126);
  }

  /** Every virtual node of server 2 hashes into the range of the ring's keys. */
  lemma VirtualHashesOfServer2(i: nat)
    requires i < VirtualNodesNumber
    ensures MinNodeHash <= Hash(VirtualName(Server2, i)) <= MaxNodeHash
  {
    if i == 0 {
      HashOfVirtual2_0();
    } else if i == 1 {
      HashOfVirtual2_1();
    } else if i == 2 {
      HashOfVirtual2_2();
    } else if i == 3 {
      HashOfVirtual2_3();
    } else if i == 4 {
      HashOfVirtual2_4();
    } else if i == 5 {
      HashOfVirtual2_5();
    } else if i == 6 {
      HashOfVirtual2_6();
    } else if i == 7 {
      HashOfVirtual2_7();
    } else if i == 8 {
      HashOfVirtual2_8();
    } else {
      HashOfVirtual2_9();
    }
  }

  /** The accumulator once the loop has run over the address of server 3. */
  lemma AccumulatorOfServer3()
    ensures Accumulate(OffsetBasis, Server3) == 0x32f9e9b5
  {
    assert Server3 == Prefix + [0x39, 0x35, 0x2e, 0x31, 0x3a, 0x38, 0x30, 0x30, 0x38];
    AccumulatorOfPrefix();
    AccumulateConcat(OffsetBasis, Prefix, [0x39, 0x35, 0x2e, 0x31, 0x3a, 0x38, 0x30, 0x30, 0x38]);
    AccumulateFour(0x0c6d8a2a, 0x39, 0x35, 0x2e, 0x31);
    assert Step(0x0c6d8a2a, 0x39) == 0xa3705be9;
    assert Step(0xa3705be9, 0x35) == 0x25e09b54;
    assert Step(0x25e09b54, 0x2e) == 0x1a94c10e;
    assert Step(0x1a94c10e, 0x31) == 0x172c362d;
    AccumulateFour(0x172c362d, 0x3a, 0x38, 0x30, 0x30);
    assert Step(0x172c362d, 0x3a) == 0x91992635;
    assert Step(0x91992635, 0x38) == 0x4116e677;
    assert Step(0x4116e677, 0x30) == 0xbe0c81c5;
    assert Step(0xbe0c81c5, 0x30) == 0x22b094af;
    AccumulateConcat(0x0c6d8a2a, [0x39, 0x35, 0x2e, 0x31], [0x3a, 0x38, 0x30, 0x30]);
    AccumulateSnoc(0x0c6d8a2a, ([0x39, 0x35, 0x2e, 0x31] + [0x3a, 0x38, 0x30, 0x30]), 0x38);
    assert Step(0x22b094af, 0x38) == 0x32f9e9b5;
  }

  /** The finisher applied to server 3's accumulator. */
  lemma FinishOfServer3()
    ensures Finish(0x32f9e9b5) == 0x1da2a5ba
  {
    assert AddShiftedLeft(0x32f9e9b5, 13) == 0x703089b5;
    SignedShiftRight7(0x703089b5);
    assert XorShiftedRight(0x703089b5, 7) == 0x70d0e8a6;
    assert AddShiftedLeft(0x70d0e8a6, 3) == 0xf7582dd6;
    SignedShiftRight17(0xf7582dd6);
    assert XorShiftedRight(0xf7582dd6, 17) == 0x08a7d67a;
    assert AddShiftedLeft(0x08a7d67a, 5) == 0x1da2a5ba;
  }

  /** The ring key of server 3 itself. */
  lemma HashOfServer3()
    ensures Hash(Server3) == 497198522
  {
    AccumulatorOfServer3();
    FinishOfServer3();
    HashFromSteps(Server3, 0x32f9e9b5, 0x1da2a5ba, 497198522);
  }

  /** The last two loop passes of `server3&0`, then the finisher. */
  lemma FinishOfVirtual3_0()
    ensures Finish(Step(Step(0x32f9e9b5, 0x26), 0x30)) == 0x3018d954
  {
    assert Step(Step(0x32f9e9b5, 0x26), 0x30) == 0x96f6c21b;
    assert AddShiftedLeft(0x96f6c21b, 13) == 0x6f3a221b;
    SignedShiftRight7(0x6f3a221b);
    assert XorShiftedRight(0x6f3a221b, 7) == 0x6fe4565f;
    assert AddShiftedLeft(0x6fe4565f, 3) == 0xef070957;
    SignedShiftRight17(0xef070957);
    assert XorShiftedRight(0xef070957, 17) == 0x10f8fed4;
    assert AddShiftedLeft(0x10f8fed4, 5) == 0x3018d954;
  }

  /** The ring key of `server3&0`. */
  lemma HashOfVirtual3_0()
    ensures Hash(VirtualName(Server3, 0)) == 806934868
  {
    AccumulatorOfServer3();
    FinishOfVirtual3_0();
    HashOfVirtualName(Server3, 0, 0x32f9e9b5, 0x30, 0x3018d954, 806934868);
  }

  /** The last two loop passes of `server3&1`, then the finisher. */
  lemma FinishOfVirtual3_1()
    ensures Finish(Step(Step(0x32f9e9b5, 0x26), 0x31)) == 0x62fc670c
  {
    assert Step(Step(0x32f9e9b5, 0x26), 0x31) == 0x95f6c088;
    assert AddShiftedLeft(0x95f6c088, 13) == 0x6e07c088;
    SignedShiftRight7(0x6e07c088);
    assert XorShiftedRight(0x6e07c088, 7) == 0x6edbcf09;
    assert AddShiftedLeft(0x6edbcf09, 3) == 0xe5ba4751;
    SignedShiftRight17(0xe5ba4751);
    assert XorShiftedRight(0xe5ba4751, 17) == 0x1a45b58c;
    assert AddShiftedLeft(0x1a45b58c, 5) == 0x62fc670c;
  }

  /** The ring key of `server3&1`. */
  lemma HashOfVirtual3_1()
    ensures Hash(VirtualName(Server3, 1)) == 1660708620
  {
    AccumulatorOfServer3();
    FinishOfVirtual3_1();
    HashOfVirtualName(Server3, 1, 0x32f9e9b5, 0x31, 0x62fc670c, 1660708620);
  }

  /** The last two loop passes of `server3&2`, then the finisher. */
  lemma FinishOfVirtual3_2()
    ensures Finish(Step(Step(0x32f9e9b5, 0x26), 0x32)) == 0x54ffacf5
  {
    assert Step(Step(0x32f9e9b5, 0x26), 0x32) == 0x98f6c541;
    assert AddShiftedLeft(0x98f6c541, 13) == 0x719ee541;
    SignedShiftRight7(0x719ee541);
    assert XorShiftedRight(0x719ee541, 7) == 0x717dd88b;
    assert AddShiftedLeft(0x717dd88b, 3) == 0xfd6c9ce3;
    SignedShiftRight17(0xfd6c9ce3);
    assert XorShiftedRight(0xfd6c9ce3, 17) == 0x02936255;
    assert AddShiftedLeft(0x02936255, 5) == 0x54ffacf5;
  }

  /** The ring key of `server3&2`. */
  lemma HashOfVirtual3_2()
    ensures Hash(VirtualName(Server3, 2)) == 1426042101
  {
    AccumulatorOfServer3();
    FinishOfVirtual3_2();
    HashOfVirtualName(Server3, 2, 0x32f9e9b5, 0x32, 0x54ffacf5, 1426042101);
  }

  /** The last two loop passes of `server3&3`, then the finisher. */
  lemma FinishOfVirtual3_3()
    ensures Finish(Step(Step(0x32f9e9b5, 0x26), 0x33)) == 0x6d2b8646
  {
    assert Step(Step(0x32f9e9b5, 0x26), 0x33) == 0x97f6c3ae;
    assert AddShiftedLeft(0x97f6c3ae, 13) == 0x706c83ae;
    SignedShiftRight7(0x706c83ae);
    assert XorShiftedRight(0x706c83ae, 7) == 0x708c5aa9;
    assert AddShiftedLeft(0x708c5aa9, 3) == 0xf4ef2ff1;
    SignedShiftRight17(0xf4ef2ff1);
    assert XorShiftedRight(0xf4ef2ff1, 17) == 0x0b10d586;
    assert AddShiftedLeft(0x0b10d586, 5) == 0x6d2b8646;
  }

  /** The ring key of `server3&3`. */
  lemma HashOfVirtual3_3()
    ensures Hash(VirtualName(Server3, 3)) == 1831568966
  {
    AccumulatorOfServer3();
    FinishOfVirtual3_3();
    HashOfVirtualName(Server3, 3, 0x32f9e9b5, 0x33, 0x6d2b8646, 1831568966);
  }

  /** The last two loop passes of `server3&4`, then the finisher. */
  lemma FinishOfVirtual3_4()
    ensures Finish(Step(Step(0x32f9e9b5, 0x26), 0x34)) == 0xa56e002b
  {
    assert Step(Step(0x32f9e9b5, 0x26), 0x34) == 0x9af6c867;
    assert AddShiftedLeft(0x9af6c867, 13) == 0x7403a867;
    SignedShiftRight7(0x7403a867);
    assert XorShiftedRight(0x7403a867, 7) == 0x74ebaf37;
    assert AddShiftedLeft(0x74ebaf37, 3) == 0x1c4928ef;
    SignedShiftRight17(0x1c4928ef);
    assert XorShiftedRight(0x1c4928ef, 17) == 0x1c4926cb;
    assert AddShiftedLeft(0x1c4926cb, 5) == 0xa56e002b;
  }

  /** The ring key of `server3&4`. */
  lemma HashOfVirtual3_4()
    ensures Hash(VirtualName(Server3, 4)) == 1519517653
  {
    AccumulatorOfServer3();
    FinishOfVirtual3_4();
    HashOfVirtualName(Server3, 4, 0x32f9e9b5, 0x34, 0xa56e002b, -1519517653);
  }

  /** The last two loop passes of `server3&5`, then the finisher. */
  lemma FinishOfVirtual3_5()
    ensures Finish(Step(Step(0x32f9e9b5, 0x26), 0x35)) == 0x7f5ce0af
  {
    assert Step(Step(0x32f9e9b5, 0x26), 0x35) == 0x99f6c6d4;
    assert AddShiftedLeft(0x99f6c6d4, 13) == 0x72d146d4;
    SignedShiftRight7(0x72d146d4);
    assert XorShiftedRight(0x72d146d4, 7) == 0x7234e459;
    assert AddShiftedLeft(0x7234e459, 3) == 0x03dc0721;
    SignedShiftRight17(0x03dc0721);
    assert XorShiftedRight(0x03dc0721, 17) == 0x03dc06cf;
    assert AddShiftedLeft(0x03dc06cf, 5) == 0x7f5ce0af;
  }

  /** The ring key of `server3&5`. */
  lemma HashOfVirtual3_5()
    ensures Hash(VirtualName(Server3, 5)) == 2136793263
  {
    AccumulatorOfServer3();
    FinishOfVirtual3_5();
    HashOfVirtualName(Server3, 5, 0x32f9e9b5, 0x35, 0x7f5ce0af, 2136793263);
  }

  /** The last two loop passes of `server3&6`, then the finisher. */
  lemma FinishOfVirtual3_6()
    ensures Finish(Step(Step(0x32f9e9b5, 0x26), 0x36)) == 0x7ffaf35f
  {
    assert Step(Step(0x32f9e9b5, 0x26), 0x36) == 0x9cf6cb8d;
    assert AddShiftedLeft(0x9cf6cb8d, 13) == 0x76686b8d;
    SignedShiftRight7(0x76686b8d);
    assert XorShiftedRight(0x76686b8d, 7) == 0x7684bb5a;
    assert AddShiftedLeft(0x7684bb5a, 3) == 0x2aaa962a;
    SignedShiftRight17(0x2aaa962a);
    assert XorShiftedRight(0x2aaa962a, 17) == 0x2aaa837f;
    assert AddShiftedLeft(0x2aaa837f, 5) == 0x7ffaf35f;
  }

  /** The ring key of `server3&6`. */
  lemma HashOfVirtual3_6()
    ensures Hash(VirtualName(Server3, 6)) == 2147152735
  {
    AccumulatorOfServer3();
    FinishOfVirtual3_6();
    HashOfVirtualName(Server3, 6, 0x32f9e9b5, 0x36, 0x7ffaf35f, 2147152735);
  }

  /** The last two loop passes of `server3&7`, then the finisher. */
  lemma FinishOfVirtual3_7()
    ensures Finish(Step(Step(0x32f9e9b5, 0x26), 0x37)) == 0xbcb0752e
  {
    assert Step(Step(0x32f9e9b5, 0x26), 0x37) == 0x9bf6c9fa;
    assert AddShiftedLeft(0x9bf6c9fa, 13) == 0x753609fa;
    SignedShiftRight7(0x753609fa);
    assert XorShiftedRight(0x753609fa, 7) == 0x75dc65e9;
    assert AddShiftedLeft(0x75dc65e9, 3) == 0x24bf9531;
    SignedShiftRight17(0x24bf9531);
    assert XorShiftedRight(0x24bf9531, 17) == 0x24bf876e;
    assert AddShiftedLeft(0x24bf876e, 5) == 0xbcb0752e;
  }

  /** The ring key of `server3&7`. */
  lemma HashOfVirtual3_7()
    ensures Hash(VirtualName(Server3, 7)) == 1129286354
  {
    AccumulatorOfServer3();
    FinishOfVirtual3_7();
    HashOfVirtualName(Server3, 7, 0x32f9e9b5, 0x37, 0xbcb0752e, -1129286354);
  }

  /** The last two loop passes of `server3&8`, then the finisher. */
  lemma FinishOfVirtual3_8()
    ensures Finish(Step(Step(0x32f9e9b5, 0x26), 0x38)) == 0x554f026f
  {
    assert Step(Step(0x32f9e9b5, 0x26), 0x38) == 0x8ef6b583;
    assert AddShiftedLeft(0x8ef6b583, 13) == 0x65a71583;
    SignedShiftRight7(0x65a71583);
    assert XorShiftedRight(0x65a71583, 7) == 0x656c5ba8;
    assert AddShiftedLeft(0x656c5ba8, 3) == 0x90cf38e8;
    SignedShiftRight17(0x90cf38e8);
    assert XorShiftedRight(0x90cf38e8, 17) == 0x6f30f08f;
    assert AddShiftedLeft(0x6f30f08f, 5) == 0x554f026f;
  }

  /** The ring key of `server3&8`. */
  lemma HashOfVirtual3_8()
    ensures Hash(VirtualName(Server3, 8)) == 1431241327
  {
    AccumulatorOfServer3();
    FinishOfVirtual3_8();
    HashOfVirtualName(Server3, 8, 0x32f9e9b5, 0x38, 0x554f026f, 1431241327);
  }

  /** The last two loop passes of `server3&9`, then the finisher. */
  lemma FinishOfVirtual3_9()
    ensures Finish(Step(Step(0x32f9e9b5, 0x26), 0x39)) == 0x217e2a00
  {
    assert Step(Step(0x32f9e9b5, 0x26), 0x39) == 0x8df6b3f0;
    assert AddShiftedLeft(0x8df6b3f0, 13) == 0x6474b3f0;
    SignedShiftRight7(0x6474b3f0);
    assert XorShiftedRight(0x6474b3f0, 7) == 0x64bc5a97;
    assert AddShiftedLeft(0x64bc5a97, 3) == 0x8a9f2f4f;
    SignedShiftRight17(0x8a9f2f4f);
    assert XorShiftedRight(0x8a9f2f4f, 17) == 0x7560ea00;
    assert AddShiftedLeft(0x7560ea00, 5) == 0x217e2a00;
  }

  /** The ring key of `server3&9`. */
  lemma HashOfVirtual3_9()
    ensures Hash(VirtualName(Server3, 9)) == 561916416
  {
    AccumulatorOfServer3();
    FinishOfVirtual3_9();
    HashOfVirtualName(Server3, 9, 0x32f9e9b5, 0x39, 0x217e2a00, 561916416);
  }

  /** Every virtual node of server 3 hashes into the range of the ring's keys. */
  lemma VirtualHashesOfServer3(i: nat)
    requires i < VirtualNodesNumber
    ensures MinNodeHash <= Hash(VirtualName(Server3, i)) <= MaxNodeHash
  {
    if i == 0 {
      HashOfVirtual3_0();
    } else if i == 1 {
      HashOfVirtual3_1();
    } else if i == 2 {
      HashOfVirtual3_2();
    } else if i == 3 {
      HashOfVirtual3_3();
    } else if i == 4 {
      HashOfVirtual3_4();
    } else if i == 5 {
      HashOfVirtual3_5();
    } else if i == 6 {
      HashOfVirtual3_6();
    } else if i == 7 {
      HashOfVirtual3_7();
    } else if i == 8 {
      HashOfVirtual3_8();
    } else {
      HashOfVirtual3_9();
    }
  }

  /** Every server hashes into `MinNodeHash ..= MaxNodeHash`. */
  lemma ServerHashInRange(n: JString)
    requires n in ServerList
    ensures MinNodeHash <= Hash(n) <= MaxNodeHash
  {
    assert n == Server0 || n == Server1 || n == Server2 || n == Server3;
    if n == Server0 {
      ServerHashInRange0(n);
    } else if n == Server1 {
      ServerHashInRange1(n);
    } else if n == Server2 {
      ServerHashInRange2(n);
    } else {
      ServerHashInRange3(n);
    }
  }

  /** Server 0 hashes into `MinNodeHash ..= MaxNodeHash`. */
  lemma ServerHashInRange0(n: JString)
    requires n == Server0
    ensures MinNodeHash <= Hash(n) <= MaxNodeHash
  {
    HashOfServer0();
  }

  /** Server 1 hashes into `MinNodeHash ..= MaxNodeHash`. */
  lemma ServerHashInRange1(n: JString)
    requires n == Server1
    ensures MinNodeHash <= Hash(n) <= MaxNodeHash
  {
    HashOfServer1();
  }

  /** Server 2 hashes into `MinNodeHash ..= MaxNodeHash`. */
  lemma ServerHashInRange2(n: JString)
    requires n == Server2
    ensures MinNodeHash <= Hash(n) <= MaxNodeHash
  {
    HashOfServer2();
  }

  /** Server 3 hashes into `MinNodeHash ..= MaxNodeHash`. */
  lemma ServerHashInRange3(n: JString)
    requires n == Server3
    ensures MinNodeHash <= Hash(n) <= MaxNodeHash
  {
    HashOfServer3();
  }

  /** Every virtual node hashes into `MinNodeHash ..= MaxNodeHash`. */
  lemma VirtualHashInRange(s: JString, i: nat)
    requires s in ServerList && i < VirtualNodesNumber
    ensures MinNodeHash <= Hash(VirtualName(s, i)) <= MaxNodeHash
  {
    if s == Server0 {
      VirtualHashesOfServer0(i);
    } else if s == Server1 {
      VirtualHashesOfServer1(i);
    } else if s == Server2 {
      VirtualHashesOfServer2(i);
    } else {
      VirtualHashesOfServer3(i);
    }
  }

  /** Every node name hashes into `MinNodeHash ..= MaxNodeHash`. */
  lemma NodeHashInRange(n: JString)
    requires IsNodeOf(ServerList, VirtualNodesNumber, n)
    ensures MinNodeHash <= Hash(n) <= MaxNodeHash
  {
    if n in ServerList {
      ServerHashInRange(n);
    } else {
      var s, i: nat :| s in ServerList && i < VirtualNodesNumber && n == VirtualName(s, i);
      VirtualHashInRange(s, i);
    }
  }

  /** The keys of the static ring all lie in `MinNodeHash ..= MaxNodeHash`. */
  lemma StaticRingKeysInRange(ring: map<int, JString>)
    requires ring == RingOf(NodeNames(ServerList, VirtualNodesNumber))
    ensures forall k :: k in ring ==> MinNodeHash <= k <= MaxNodeHash
  {
    var names := NodeNames(ServerList, VirtualNodesNumber);
    RingOfContents(names);
    forall k | k in ring
      ensures MinNodeHash <= k <= MaxNodeHash
    {
      NodeNamesShape(ServerList, VirtualNodesNumber, ring[k]);
      NodeHashInRange(ring[k]);
    }
  }

  /** Whatever name sits at position `j` of `names`, its hash is a key of the ring built from them. */
  lemma KeyOfName(names: seq<JString>, j: nat, ring: map<int, JString>, n: JString, h: int)
    requires ring == RingOf(names)
    requires j < |names| && names[j] == n && Hash(n) == h
    ensures h in ring
  {
    RingOfContents(names);
  }

  /** A lookup at or below some key of the ring succeeds. */
  lemma LookupBelowKey(ring: map<int, JString>, hash: int, key: int)
    requires key in ring && hash <= key
    ensures Lookup(ring, hash).Success?
  {
  }

  /** Position 40 of `nodeList` holds `VirtualName(Server3, 6)`. */
  lemma NodeListAt40(names: seq<JString>)
    requires names == NodeNames(ServerList, VirtualNodesNumber)
    ensures 40 < |names| && names[40] == VirtualName(Server3, 6)
  {
    NodeNamesAt(ServerList, VirtualNodesNumber, 3, 7);
  }

  /** `MaxNodeHash` is a key of the static ring: the hash of `VirtualName(Server3, 6)`. */
  lemma MaxNodeHashIsKey(ring: map<int, JString>)
    requires ring == RingOf(NodeNames(ServerList, VirtualNodesNumber))
    ensures MaxNodeHash in ring
  {
    var names := NodeNames(ServerList, VirtualNodesNumber);
    NodeListAt40(names);
    HashOfVirtual3_6();
    KeyOfName(names, 40, ring, VirtualName(Server3, 6), MaxNodeHash);
  }

  /** Position 8 of `nodeList` holds `VirtualName(Server0, 7)`. */
  lemma NodeListAt8(names: seq<JString>)
    requires names == NodeNames(ServerList, VirtualNodesNumber)
    ensures 8 < |names| && names[8] == VirtualName(Server0, 7)
  {
    NodeNamesAt(ServerList, VirtualNodesNumber, 0, 8);
  }

  /** `MinNodeHash` is a key of the static ring: the hash of `VirtualName(Server0, 7)`. */
  lemma MinNodeHashIsKey(ring: map<int, JString>)
    requires ring == RingOf(NodeNames(ServerList, VirtualNodesNumber))
    ensures MinNodeHash in ring
  {
    var names := NodeNames(ServerList, VirtualNodesNumber);
    NodeListAt8(names);
    HashOfVirtual0_7();
    KeyOfName(names, 8, ring, VirtualName(Server0, 7), MinNodeHash);
  }

  /** The user id `main` looks up, as code units. */
  const MainUserId: JString := [0x31, 0x32, 0x33, 0x35, 0x34, 0x36, 0x35]

  /** The code units above spell `"1235465"`. */
  lemma MainUserIdText()
    ensures Text("1235465") == MainUserId
  {
  }

  /** The accumulator of the user id `main` looks up. */
  lemma AccumulatorOfMainUser(user: JString)
    requires user == MainUserId
    ensures Accumulate(OffsetBasis, user) == 0x07cc63c3
  {
    assert user == ((([0x31, 0x32, 0x33, 0x35] + [0x34]) + [0x36]) + [0x35]);
    AccumulateFour(0x811c9dc5, 0x31, 0x32, 0x33, 0x35);
    assert Step(0x811c9dc5, 0x31) == 0x340ca71c;
    assert Step(0x340ca71c, 0x32) == 0x1deb2d6a;
    assert Step(0x1deb2d6a, 0x33) == 0x7238631b;
    assert Step(0x7238631b, 0x35) == 0xfcc4216a;
    AccumulateSnoc(OffsetBasis, [0x31, 0x32, 0x33, 0x35], 0x34);
    assert Step(0xfcc4216a, 0x34) == 0x46c086fa;
    AccumulateSnoc(OffsetBasis, ([0x31, 0x32, 0x33, 0x35] + [0x34]), 0x36);
    assert Step(0x46c086fa, 0x36) == 0x2d143324;
    AccumulateSnoc(OffsetBasis, (([0x31, 0x32, 0x33, 0x35] + [0x34]) + [0x36]), 0x35);
    assert Step(0x2d143324, 0x35) == 0x07cc63c3;
  }

  /** The finisher applied to the accumulator of the user id `main` looks up. */
  lemma FinishOfMainUser()
    ensures Finish(0x07cc63c3) == 0x5f615f63
  {
    assert AddShiftedLeft(0x07cc63c3, 13) == 0x9444c3c3;
    SignedShiftRight7(0x9444c3c3);
    assert XorShiftedRight(0x9444c3c3, 7) == 0x6b6c4a44;
    assert AddShiftedLeft(0x6b6c4a44, 3) == 0xc6ce9c64;
    SignedShiftRight17(0xc6ce9c64);
    assert XorShiftedRight(0xc6ce9c64, 17) == 0x39317f03;
    assert AddShiftedLeft(0x39317f03, 5) == 0x5f615f63;
  }

  /** The hash of the user id `main` looks up. */
  lemma HashOfMainUser(user: JString)
    requires user == MainUserId
    ensures Hash(user) == 1600216931
  {
    AccumulatorOfMainUser(user);
    FinishOfMainUser();
    HashFromSteps(user, 0x07cc63c3, 0x5f615f63, 1600216931);
  }

  /** The user id `"777"`, as code units. */
  const UserId777: JString := [0x37, 0x37, 0x37]

  /** The code units above spell `"777"`. */
  lemma UserId777Text()
    ensures Text("777") == UserId777
  {
  }

  /** The accumulator of the user id `"777"`. */
  lemma AccumulatorOfUser777(user: JString)
    requires user == UserId777
    ensures Accumulate(OffsetBasis, user) == 0x8bbb3eec
  {
    assert user == [0x37, 0x37, 0x37];
    AccumulateSnoc(OffsetBasis, [], 0x37);
    assert Step(0x811c9dc5, 0x37) == 0x320ca3f6;
    assert [] + [0x37] == [0x37];
    AccumulateSnoc(OffsetBasis, [0x37], 0x37);
    assert Step(0x320ca3f6, 0x37) == 0x8ae5c8d3;
    assert [0x37] + [0x37] == [0x37, 0x37];
    AccumulateSnoc(OffsetBasis, [0x37, 0x37], 0x37);
    assert Step(0x8ae5c8d3, 0x37) == 0x8bbb3eec;
    assert [0x37, 0x37] + [0x37] == [0x37, 0x37, 0x37];
  }

  /** The finisher applied to the accumulator of the user id `"777"`. */
  lemma FinishOfUser777()
    ensures Finish(0x8bbb3eec) == 0x8002b907
  {
    assert AddShiftedLeft(0x8bbb3eec, 13) == 0xf398beec;
    SignedShiftRight7(0xf398beec);
    assert XorShiftedRight(0xf398beec, 7) == 0x0c7f8f91;
    assert AddShiftedLeft(0x0c7f8f91, 3) == 0x707c0c19;
    SignedShiftRight17(0x707c0c19);
    assert XorShiftedRight(0x707c0c19, 17) == 0x707c3427;
    assert AddShiftedLeft(0x707c3427, 5) == 0x8002b907;
  }

  /** The hash of the user id `"777"`. */
  lemma HashOfUser777(user: JString)
    requires user == UserId777
    ensures Hash(user) == 2147305209
  {
    AccumulatorOfUser777(user);
    FinishOfUser777();
    HashFromSteps(user, 0x8bbb3eec, 0x8002b907, -2147305209);
  }

  /** `main`'s lookup of `"1235465"` finds a key at or above its hash, and so a server. */
  lemma LookupOfMainUser(ring: map<int, JString>, user: JString)
    requires ring == RingOf(NodeNames(ServerList, VirtualNodesNumber))
    requires user == MainUserId
    ensures Lookup(ring, Hash(user)).Success?
    ensures Lookup(ring, Hash(user)).value in ServerList
  {
    MaxNodeHashIsKey(ring);
    HashOfMainUser(user);
    LookupBelowKey(ring, Hash(user), MaxNodeHash);
    LookupServesServer(ring, Hash(user));
  }

  /**
   * As written, `getAddr("777")` throws: the hash of `"777"` exceeds every
   * key of the static ring, so the tail map above it is empty. A lookup that
   * wraps around serves the server owning the least key instead.
   */
  lemma LookupOfUser777(ring: map<int, JString>, user: JString)
    requires ring == RingOf(NodeNames(ServerList, VirtualNodesNumber))
    requires user == UserId777
    ensures MaxNodeHash < Hash(user)
    ensures Lookup(ring, Hash(user)) == Failure(NoSuchElement)
    ensures MinNodeHash in ring
    ensures LookupWrapping(ring, Hash(user)) == Success(StripTag(ring[MinNodeHash]))
    ensures StripTag(ring[MinNodeHash]) in ServerList
  {
    StaticRingKeysInRange(ring);
    MinNodeHashIsKey(ring);
    HashOfUser777(user);
    var keys := ring.Keys;
    assert IsLeast(keys, MinNodeHash);
    assert Least(keys) == MinNodeHash;
    StaticRingServes(ring, MinNodeHash);
  }
}
