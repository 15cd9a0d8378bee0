/** 2^255 - 19 is prime: witnesses for Pocklington's criterion, down to primes that are found
    by trial division.  Each line squares a power modulo n, or multiplies it by the base. */
module PrimeCertificate {
  import opened Arith
  import opened Rfc7748
  import opened Primes
  import opened PowerChain

  const T: int := 0x82d4b5
  const S: int := 0x6d1cafa129d0b
  const R: int := 0xe87c2a477b815a1793787395b23e1
  const Q: int := 0xabaf8c6b094fd0f32c2ccabab864dbecd99144679c1adf804898fb2042b

  // ---------------------------------------------------------------- one line of a chain, for each modulus

  lemma SqT(a: int, e: nat, x: int, z: int) returns (e': nat)
    requires Cong(Power(a, e), x, T) && (x * x) % 0x82d4b5 == z
    ensures e' == 2 * e && Cong(Power(a, e'), z, T)
  {
    e' := Sq(T, a, e, x, z);
  }

  lemma SqUpT(a: int, e: nat, x: int, z: int) returns (e': nat)
    requires Cong(Power(a, e), x, T) && (x * x) % 0x82d4b5 == z
    ensures e' == 2 * e + 1 && Cong(Power(a, e'), a * z, T)
  {
    e' := Sq(T, a, e, x, z);
    e' := Up(T, a, e', z);
  }

  lemma UpT(a: int, e: nat, x: int, y: int) returns (e': nat)
    requires Cong(Power(a, e), x, T) && (a * x) % 0x82d4b5 == y
    ensures e' == e + 1 && Cong(Power(a, e'), y, T)
  {
    e' := Up(T, a, e, x);
    Reduce(Power(a, e'), a * x, y, T);
  }

  lemma SqS(a: int, e: nat, x: int, z: int) returns (e': nat)
    requires Cong(Power(a, e), x, S) && (x * x) % 0x6d1cafa129d0b == z
    ensures e' == 2 * e && Cong(Power(a, e'), z, S)
  {
    e' := Sq(S, a, e, x, z);
  }

  lemma SqUpS(a: int, e: nat, x: int, z: int) returns (e': nat)
    requires Cong(Power(a, e), x, S) && (x * x) % 0x6d1cafa129d0b == z
    ensures e' == 2 * e + 1 && Cong(Power(a, e'), a * z, S)
  {
    e' := Sq(S, a, e, x, z);
    e' := Up(S, a, e', z);
  }

  lemma UpS(a: int, e: nat, x: int, y: int) returns (e': nat)
    requires Cong(Power(a, e), x, S) && (a * x) % 0x6d1cafa129d0b == y
    ensures e' == e + 1 && Cong(Power(a, e'), y, S)
  {
    e' := Up(S, a, e, x);
    Reduce(Power(a, e'), a * x, y, S);
  }

  lemma SqR(a: int, e: nat, x: int, z: int) returns (e': nat)
    requires Cong(Power(a, e), x, R) && (x * x) % 0xe87c2a477b815a1793787395b23e1 == z
    ensures e' == 2 * e && Cong(Power(a, e'), z, R)
  {
    e' := Sq(R, a, e, x, z);
  }

  lemma SqUpR(a: int, e: nat, x: int, z: int) returns (e': nat)
    requires Cong(Power(a, e), x, R) && (x * x) % 0xe87c2a477b815a1793787395b23e1 == z
    ensures e' == 2 * e + 1 && Cong(Power(a, e'), a * z, R)
  {
    e' := Sq(R, a, e, x, z);
    e' := Up(R, a, e', z);
  }

  lemma UpR(a: int, e: nat, x: int, y: int) returns (e': nat)
    requires Cong(Power(a, e), x, R) && (a * x) % 0xe87c2a477b815a1793787395b23e1 == y
    ensures e' == e + 1 && Cong(Power(a, e'), y, R)
  {
    e' := Up(R, a, e, x);
    Reduce(Power(a, e'), a * x, y, R);
  }

  lemma SqQ(a: int, e: nat, x: int, z: int) returns (e': nat)
    requires Cong(Power(a, e), x, Q) && (x * x) % 0xabaf8c6b094fd0f32c2ccabab864dbecd99144679c1adf804898fb2042b == z
    ensures e' == 2 * e && Cong(Power(a, e'), z, Q)
  {
    e' := Sq(Q, a, e, x, z);
  }

  lemma SqUpQ(a: int, e: nat, x: int, z: int) returns (e': nat)
    requires Cong(Power(a, e), x, Q) && (x * x) % 0xabaf8c6b094fd0f32c2ccabab864dbecd99144679c1adf804898fb2042b == z
    ensures e' == 2 * e + 1 && Cong(Power(a, e'), a * z, Q)
  {
    e' := Sq(Q, a, e, x, z);
    e' := Up(Q, a, e', z);
  }

  lemma UpQ(a: int, e: nat, x: int, y: int) returns (e': nat)
    requires Cong(Power(a, e), x, Q) && (a * x) % 0xabaf8c6b094fd0f32c2ccabab864dbecd99144679c1adf804898fb2042b == y
    ensures e' == e + 1 && Cong(Power(a, e'), y, Q)
  {
    e' := Up(Q, a, e, x);
    Reduce(Power(a, e'), a * x, y, Q);
  }

  // ---------------------------------------------------------------- small primes

  lemma Prime103()
    ensures Prime(103)
  {
    hide NoneBelow;
    NoneYet(103);
    Next8(103, 2); Next8(103, 10);
    SmallPrime(103, 10, 18);
  }

  lemma Prime127()
    ensures Prime(127)
  {
    hide NoneBelow;
    NoneYet(127);
    Next8(127, 2); Next8(127, 10);
    SmallPrime(127, 11, 18);
  }

  lemma Prime353()
    ensures Prime(353)
  {
    hide NoneBelow;
    NoneYet(353);
    Next8(353, 2); Next8(353, 10); Next8(353, 18);
    SmallPrime(353, 18, 26);
  }

  lemma Prime991()
    ensures Prime(991)
  {
    hide NoneBelow;
    NoneYet(991);
    Next8(991, 2); Next8(991, 10); Next8(991, 18); Next8(991, 26);
    SmallPrime(991, 31, 34);
  }

  lemma None75707_1()
    ensures NoneBelow(75707, 74)
  {
    hide NoneBelow;
    NoneYet(75707);
    Next8(75707, 2); Next8(75707, 10); Next8(75707, 18); Next8(75707, 26); Next8(75707, 34);
    Next8(75707, 42); Next8(75707, 50); Next8(75707, 58); Next8(75707, 66);
  }

  lemma None75707_2()
    ensures NoneBelow(75707, 146)
  {
    hide NoneBelow;
    None75707_1();
    Next8(75707, 74); Next8(75707, 82); Next8(75707, 90); Next8(75707, 98); Next8(75707, 106);
    Next8(75707, 114); Next8(75707, 122); Next8(75707, 130); Next8(75707, 138);
  }

  lemma None75707_3()
    ensures NoneBelow(75707, 218)
  {
    hide NoneBelow;
    None75707_2();
    Next8(75707, 146); Next8(75707, 154); Next8(75707, 162); Next8(75707, 170); Next8(75707, 178);
    Next8(75707, 186); Next8(75707, 194); Next8(75707, 202); Next8(75707, 210);
  }

  lemma Prime75707()
    ensures Prime(75707)
  {
    hide NoneBelow;
    None75707_3();
    Next8(75707, 218); Next8(75707, 226); Next8(75707, 234); Next8(75707, 242); Next8(75707, 250);
    Next8(75707, 258); Next8(75707, 266); Next8(75707, 274);
    SmallPrime(75707, 275, 282);
  }

  // ---------------------------------------------------------------- T

  /** The witness of 103 for T. */
  lemma ChainT_103()
    ensures Cong(Power(2, 0x1452c), 0x41f04d, T)
  {
    hide Cong, Power;
    Start(2, T);
    var e := 1;
    e := SqT(2, e, 2, 4);
    e := SqUpT(2, e, 4, 0x10);
    e := SqT(2, e, 0x20, 0x400);
    e := SqT(2, e, 0x400, 0x100000);
    e := SqT(2, e, 0x100000, 0x7539d9);
    e := SqUpT(2, e, 0x7539d9, 0x3e173f);
    e := SqT(2, e, 0x7c2e7e, 0x17b932);
    e := SqUpT(2, e, 0x17b932, 0x7758ee);
    e := SqT(2, e, 0xeeb1dc, 0x6e9605);
    e := SqT(2, e, 0x6e9605, 0xe7ff3);
    e := SqUpT(2, e, 0xe7ff3, 0x7027aa);
    e := SqT(2, e, 0xe04f54, 0x621515);
    e := SqUpT(2, e, 0x621515, 0x4447f7);
    e := SqUpT(2, e, 0x888fee, 0x32e933);
    e := SqT(2, e, 0x65d266, 0x829d41);
    e := SqT(2, e, 0x829d41, 0x41f04d);
  }

  /** It has order 103. */
  lemma OrderT_103()
    ensures Cong(Power(0x41f04d, 103), 1, T)
  {
    hide Cong, Power;
    Start(0x41f04d, T);
    var e := 1;
    e := SqT(0x41f04d, e, 0x41f04d, 0x742961);
    e := UpT(0x41f04d, e, 0x742961, 0x1cd377);
    e := SqT(0x41f04d, e, 0x1cd377, 0x6b322a);
    e := SqT(0x41f04d, e, 0x6b322a, 0x664ab2);
    e := SqT(0x41f04d, e, 0x664ab2, 0x71b65b);
    e := UpT(0x41f04d, e, 0x71b65b, 0x222e32);
    e := SqT(0x41f04d, e, 0x222e32, 0x13c348);
    e := UpT(0x41f04d, e, 0x13c348, 0x67b9fd);
    e := SqT(0x41f04d, e, 0x67b9fd, 0x3388c0);
    e := UpT(0x41f04d, e, 0x3388c0, 1);
  }

  /** The witness of 991 for T. */
  lemma ChainT_991()
    ensures Cong(Power(2, 0x21cc), 0x346cd1, T)
  {
    hide Cong, Power;
    Start(2, T);
    var e := 1;
    e := SqT(2, e, 2, 4);
    e := SqT(2, e, 4, 0x10);
    e := SqT(2, e, 0x10, 0x100);
    e := SqT(2, e, 0x100, 0x10000);
    e := SqUpT(2, e, 0x10000, 0x788e7c);
    e := SqUpT(2, e, 0xf11cf8, 0x712de1);
    e := SqUpT(2, e, 0xe25bc2, 0x44b2dd);
    e := SqT(2, e, 0x8965ba, 0xa56ee);
    e := SqT(2, e, 0xa56ee, 0x6ff309);
    e := SqUpT(2, e, 0x6ff309, 0x50b318);
    e := SqUpT(2, e, 0xa16630, 0x8846);
    e := SqT(2, e, 0x1108c, 0x64afad);
    e := SqT(2, e, 0x64afad, 0x346cd1);
  }

  lemma PrimeT()
    ensures Prime(T)
  {
    hide Cong, Power, Prime, Witness;
    Prime991(); Prime103();
    ChainT_103(); OrderT_103(); ChainT_991();
    WholePower(T, 103, 2, 0x1452c, 0x41f04d);
    MakeWitness(T, 103, 2, 0x1452c, 0x41f04d, 0x35e15b);
    MakeWitness(T, 991, 2, 0x21cc, 0x346cd1, 0xf79eb);
    Pocklington2(T, 991, 0x346cd1, 103, 0x41f04d);
  }

  // ---------------------------------------------------------------- S

  lemma ChainS_127_1()
    ensures Cong(Power(2, 0x1b7e2838bbe), 0x4ad3eec75f58f, S)
  {
    hide Cong, Power;
    Start(2, S);
    var e := 1;
    e := SqUpS(2, e, 2, 4);
    e := SqS(2, e, 8, 0x40);
    e := SqUpS(2, e, 0x40, 0x1000);
    e := SqUpS(2, e, 0x2000, 0x4000000);
    e := SqS(2, e, 0x8000000, 0x29fdd35587a9d);
    e := SqUpS(2, e, 0x29fdd35587a9d, 0x14ad97de6a17a);
    e := SqUpS(2, e, 0x295b2fbcd42f4, 0x61166addedc17);
    e := SqUpS(2, e, 0xc22cd5bbdb82e, 0x64d2167021697);
    e := SqUpS(2, e, 0xc9a42ce042d2e, 0x440766bcea988);
    e := SqUpS(2, e, 0x880ecd79d5310, 0x2d4283da60dc2);
    e := SqUpS(2, e, 0x5a8507b4c1b84, 0x5c1a5db7f89b5);
    e := SqS(2, e, 0xb834bb6ff136a, 0x118c2f68357fd);
    e := SqS(2, e, 0x118c2f68357fd, 0x50e1fbe5692bc);
    e := SqS(2, e, 0x50e1fbe5692bc, 0x15cd3a87c646);
    e := SqUpS(2, e, 0x15cd3a87c646, 0x33d70f2d9c7d7);
    e := SqS(2, e, 0x67ae1e5b38fae, 0x162383d01442e);
    e := SqUpS(2, e, 0x162383d01442e, 0xbbe303d7f970);
    e := SqS(2, e, 0x177c607aff2e0, 0x4fe9e97d95740);
    e := SqS(2, e, 0x4fe9e97d95740, 0x20b1710b225fe);
    e := SqS(2, e, 0x20b1710b225fe, 0x3b230b07283d0);
    e := SqS(2, e, 0x3b230b07283d0, 0x62ef0d703638a);
    e := SqS(2, e, 0x62ef0d703638a, 0x314767575867f);
    e := SqUpS(2, e, 0x314767575867f, 0x5e56983f637c4);
    e := SqUpS(2, e, 0xbcad307ec6f88, 0x38e21aa630bc0);
    e := SqUpS(2, e, 0x71c4354c61780, 0x1eb5523e12d5b);
    e := SqS(2, e, 0x3d6aa47c25ab6, 0x37f19dfcd00b5);
    e := SqS(2, e, 0x37f19dfcd00b5, 0x415981a1234ad);
    e := SqS(2, e, 0x415981a1234ad, 0x13cb87645d882);
    e := SqUpS(2, e, 0x13cb87645d882, 0x35573bf5955ef);
    e := SqS(2, e, 0x6aae77eb2abde, 0x257a4a6514457);
    e := SqUpS(2, e, 0x257a4a6514457, 0x46b7ffa513917);
    e := SqUpS(2, e, 0x8d6fff4a2722e, 0x10fe47409dd6b);
    e := SqUpS(2, e, 0x21fc8e813bad6, 0x4a516b2ed1591);
    e := SqS(2, e, 0x94a2d65da2b22, 0x593346d482ef9);
    e := SqUpS(2, e, 0x593346d482ef9, 0x5c1975b1bc3d0);
    e := SqUpS(2, e, 0xb832eb63787a0, 0x1b2aeb5e9a4d);
    e := SqUpS(2, e, 0x3655d6bd349a, 0x599a05d837653);
    e := SqUpS(2, e, 0xb3340bb06eca6, 0x8c8123b2d4b7);
    e := SqUpS(2, e, 0x119024765a96e, 0x66a2450c12a9f);
    e := SqS(2, e, 0xcd448a182553e, 0x4ad3eec75f58f);
  }

  /** The witness of 127 for S. */
  lemma ChainS_127()
    ensures Cong(Power(2, 0xdbf141c5df6), 0x20c92d89f364e, S)
  {
    hide Cong, Power;
    ChainS_127_1();
    var e := 0x1b7e2838bbe;
    e := SqUpS(2, e, 0x4ad3eec75f58f, 0x3874d0e59b3b2);
    e := SqUpS(2, e, 0x70e9a1cb36764, 0x30b72716c6e49);
    e := SqS(2, e, 0x616e4e2d8dc92, 0x20c92d89f364e);
  }

  /** It has order 127. */
  lemma OrderS_127()
    ensures Cong(Power(0x20c92d89f364e, 127), 1, S)
  {
    hide Cong, Power;
    Start(0x20c92d89f364e, S);
    var e := 1;
    e := SqS(0x20c92d89f364e, e, 0x20c92d89f364e, 0x39f9bbd080fb6);
    e := UpS(0x20c92d89f364e, e, 0x39f9bbd080fb6, 0x4d2fe94a48f17);
    e := SqS(0x20c92d89f364e, e, 0x4d2fe94a48f17, 0x17bbb7361d8f0);
    e := UpS(0x20c92d89f364e, e, 0x17bbb7361d8f0, 0x2b2b91dd75da8);
    e := SqS(0x20c92d89f364e, e, 0x2b2b91dd75da8, 0x414b55f494574);
    e := UpS(0x20c92d89f364e, e, 0x414b55f494574, 0x475a982f66f0);
    e := SqS(0x20c92d89f364e, e, 0x475a982f66f0, 0x65de41a6e2fbe);
    e := UpS(0x20c92d89f364e, e, 0x65de41a6e2fbe, 0x4b1087828e7c0);
    e := SqS(0x20c92d89f364e, e, 0x4b1087828e7c0, 0x2f72d7927fb9);
    e := UpS(0x20c92d89f364e, e, 0x2f72d7927fb9, 0x604a4f40a56ca);
    e := SqS(0x20c92d89f364e, e, 0x604a4f40a56ca, 0x6a5452de48a93);
    e := UpS(0x20c92d89f364e, e, 0x6a5452de48a93, 1);
  }

  /** The witness of T for S. */
  lemma ChainS_T()
    ensures Cong(Power(2, 0xd580922), 0x3c3ffdef7c0b1, S)
  {
    hide Cong, Power;
    Start(2, S);
    var e := 1;
    e := SqUpS(2, e, 2, 4);
    e := SqS(2, e, 8, 0x40);
    e := SqUpS(2, e, 0x40, 0x1000);
    e := SqS(2, e, 0x2000, 0x4000000);
    e := SqUpS(2, e, 0x4000000, 0x25c6a0bdac5ea);
    e := SqS(2, e, 0x4b8d417b58bd4, 0x3bb9bdc82f6e4);
    e := SqUpS(2, e, 0x3bb9bdc82f6e4, 0x2f8c73c3755b1);
    e := SqUpS(2, e, 0x5f18e786eab62, 0x1a5126b38cc59);
    e := SqS(2, e, 0x34a24d67198b2, 0x404d9a606b02c);
    e := SqS(2, e, 0x404d9a606b02c, 0x6a2603b88121b);
    e := SqS(2, e, 0x6a2603b88121b, 0x19004c5c350df);
    e := SqS(2, e, 0x19004c5c350df, 0x42d8f2a2ec64a);
    e := SqS(2, e, 0x42d8f2a2ec64a, 0x508eccc5fc7a7);
    e := SqS(2, e, 0x508eccc5fc7a7, 0xd194095d85ca);
    e := SqS(2, e, 0xd194095d85ca, 0x4eb4d9d00b27c);
    e := SqUpS(2, e, 0x4eb4d9d00b27c, 0x4aaf0da0f03b1);
    e := SqS(2, e, 0x955e1b41e0762, 0x2eb989126ce8e);
    e := SqS(2, e, 0x2eb989126ce8e, 0x5772cd6bce94b);
    e := SqUpS(2, e, 0x5772cd6bce94b, 0x2e99164560429);
    e := SqS(2, e, 0x5d322c8ac0852, 0x4e0d9428f0339);
    e := SqS(2, e, 0x4e0d9428f0339, 0xfeb816ba61af);
    e := SqUpS(2, e, 0xfeb816ba61af, 0x5c9514e61a9ab);
    e := SqS(2, e, 0xb92a29cc35356, 0x259cb28ce652d);
    e := SqS(2, e, 0x259cb28ce652d, 0x38f03576a55f7);
    e := SqS(2, e, 0x38f03576a55f7, 0x675002e71f67f);
    e := SqUpS(2, e, 0x675002e71f67f, 0xa5b82ba27742);
    e := SqS(2, e, 0x14b705744ee84, 0x3c3ffdef7c0b1);
  }

  lemma PrimeS()
    ensures Prime(S)
  {
    hide Cong, Power, Prime, Witness;
    PrimeT(); Prime127();
    ChainS_127(); OrderS_127(); ChainS_T();
    WholePower(S, 127, 2, 0xdbf141c5df6, 0x20c92d89f364e);
    MakeWitness(S, 127, 2, 0xdbf141c5df6, 0x20c92d89f364e, 0x6a4e3f18a99bc);
    MakeWitness(S, T, 2, 0xd580922, 0x3c3ffdef7c0b1, 0x495bef080ea35);
    Pocklington2(S, T, 0x3c3ffdef7c0b1, 127, 0x20c92d89f364e);
  }

  // ---------------------------------------------------------------- R

  lemma ChainR_75707_1()
    ensures Cong(Power(2, 0x19280b4f8db), 0xe13443886424e960b3364409c368a, R)
  {
    hide Cong, Power;
    Start(2, R);
    var e := 1;
    e := SqUpR(2, e, 2, 4);
    e := SqR(2, e, 8, 0x40);
    e := SqR(2, e, 0x40, 0x1000);
    e := SqUpR(2, e, 0x1000, 0x1000000);
    e := SqR(2, e, 0x2000000, 0x4000000000000);
    e := SqR(2, e, 0x4000000000000, 0x10000000000000000000000000);
    e := SqUpR(2, e, 0x10000000000000000000000000, 0x9acdf65091f0b68dddcb5d786b5c0);
    e := SqR(2, e, 0x1359beca123e16d1bbb96baf0d6b80, 0xae5a210dbaae421f69632265f75cf);
    e := SqUpR(2, e, 0xae5a210dbaae421f69632265f75cf, 0x350c561ffe6c3000000000000);
    e := SqR(2, e, 0x6a18ac3ffcd86000000000000, 0x2bb7c219f24bef13be4e7628f9198);
    e := SqR(2, e, 0x2bb7c219f24bef13be4e7628f9198, 0x9d96455616238cfda50440d0f5d8b);
    e := SqR(2, e, 0x9d96455616238cfda50440d0f5d8b, 0x8f31af9c424371bf5ade407761822);
    e := SqR(2, e, 0x8f31af9c424371bf5ade407761822, 0xd4019da44e89c5525d6a82c4fae14);
    e := SqR(2, e, 0xd4019da44e89c5525d6a82c4fae14, 0x36c88bd7f8b39b365d5f019132f59);
    e := SqR(2, e, 0x36c88bd7f8b39b365d5f019132f59, 0x7bf7d983f005dbf244bc78a62bd26);
    e := SqR(2, e, 0x7bf7d983f005dbf244bc78a62bd26, 0x930cb76081a5d1ce489c7c7368e90);
    e := SqUpR(2, e, 0x930cb76081a5d1ce489c7c7368e90, 0x90b2a53c19b65718c5a6cb117f1e1);
    e := SqR(2, e, 0x121654a78336cae318b4d9622fe3c2, 0x4794b895c52c36c211abbea93c267);
    e := SqUpR(2, e, 0x4794b895c52c36c211abbea93c267, 0x327728e83d508780648bf29fa0c91);
    e := SqUpR(2, e, 0x64ee51d07aa10f00c917e53f41922, 0xdd227402f4a2bd75c3ae5e148f96b);
    e := SqR(2, e, 0x1ba44e805e9457aeb875cbc291f2d6, 0x8ae49ee92ad10a54b63d212e1cc9d);
    e := SqUpR(2, e, 0x8ae49ee92ad10a54b63d212e1cc9d, 0xb67331a2fd76f82dfdd956a932d93);
    e := SqR(2, e, 0x16ce66345faedf05bfbb2ad5265b26, 0x92a81457e5d916e1ae10b6316df31);
    e := SqR(2, e, 0x92a81457e5d916e1ae10b6316df31, 0x96234b5e23e113a7947260bf14eba);
    e := SqUpR(2, e, 0x96234b5e23e113a7947260bf14eba, 0xe3e67dc7a8df495b090c58eebcccb);
    e := SqUpR(2, e, 0x1c7ccfb8f51be92b61218b1dd79996, 0xa2c008de44268f8fee41b2e0c6dc1);
    e := SqUpR(2, e, 0x1458011bc884d1f1fdc8365c18db82, 0xb6c6a2ef7b16e978d0042b7c6c695);
    e := SqUpR(2, e, 0x16d8d45def62dd2f1a00856f8d8d2a, 0x25960fc4f241ffec50b97d4c77535);
    e := SqUpR(2, e, 0x4b2c1f89e483ffd8a172fa98eea6a, 0xdb2eb923daea1d27bc5d4fc0f77b);
    e := SqR(2, e, 0x1b65d7247b5d43a4f78ba9f81eef6, 0x48b5d71ff5824495fd24f81827173);
    e := SqR(2, e, 0x48b5d71ff5824495fd24f81827173, 0xcb8bcbed59cfd6d3a3d73bb590d61);
    e := SqR(2, e, 0xcb8bcbed59cfd6d3a3d73bb590d61, 0xb1dacd7f4c46cfd6fe4584df742dd);
    e := SqUpR(2, e, 0xb1dacd7f4c46cfd6fe4584df742dd, 0x96c9367fb3c11080d16b3165e65ee);
    e := SqUpR(2, e, 0x12d926cff67822101a2d662cbccbdc, 0xb7d79255a5dee43271b59a943c4f4);
    e := SqR(2, e, 0x16faf24ab4bbdc864e36b3528789e8, 0xa1d3c1be0e761e27139f76483c885);
    e := SqUpR(2, e, 0xa1d3c1be0e761e27139f76483c885, 0xb472e37aaf62ddf5a2c646a74670a);
    e := SqUpR(2, e, 0x168e5c6f55ec5bbeb458c8d4e8ce14, 0xa68504499f7d6944281c0ba975892);
    e := SqR(2, e, 0x14d0a08933efad28850381752eb124, 0x33841355d4de7f7b4a254f6e6d156);
    e := SqUpR(2, e, 0x33841355d4de7f7b4a254f6e6d156, 0x6ac6a6086519dd3278482596c04b7);
    e := SqUpR(2, e, 0xd58d4c10ca33ba64f0904b2d8096e, 0x709a21c4321274b0599b2204e1b45);
  }

  lemma ChainR_75707_2()
    ensures Cong(Power(2, 0x19280b4f8dbbff13a17de), 0x43133a35b9397f8224386bd9ee698, R)
  {
    hide Cong, Power;
    ChainR_75707_1();
    var e := 0x19280b4f8db;
    e := SqUpR(2, e, 0xe13443886424e960b3364409c368a, 0x8865886e3c6caad5d57856c5e104c);
    e := SqR(2, e, 0x110cb10dc78d955abaaf0ad8bc2098, 0x5719c8587775955315e7ee5299a71);
    e := SqUpR(2, e, 0x5719c8587775955315e7ee5299a71, 0x309e01957c7fb5c8928a6509fa2f2);
    e := SqUpR(2, e, 0x613c032af8ff6b912514ca13f45e4, 0x86eb1f12d7765cec70c8aacffb2e7);
    e := SqUpR(2, e, 0x10dd63e25aeecb9d8e191559ff65ce, 0x1d1e2c6fbc1c9df2d35c422b373f2);
    e := SqUpR(2, e, 0x3a3c58df78393be5a6b884566e7e4, 0x71a645177991deb73934a8d8e8d40);
    e := SqUpR(2, e, 0xe34c8a2ef323bd6e726951b1d1a80, 0xd1d41fe99ceaf689cb796730e2d1d);
    e := SqUpR(2, e, 0x1a3a83fd339d5ed1396f2ce61c5a3a, 0x56ec458dba087202c706fcb65d233);
    e := SqUpR(2, e, 0xadd88b1b7410e4058e0df96cba466, 0x6b666dc7a39dfac82d3c5fa4249fc);
    e := SqUpR(2, e, 0xd6ccdb8f473bf5905a78bf48493f8, 0xaec01049dafd4b12d0e29bf064b2e);
    e := SqUpR(2, e, 0x15d802093b5fa9625a1c537e0c965c, 0x1d05240df72c8fda632cfe8ae041d);
    e := SqUpR(2, e, 0x3a0a481bee591fb4c659fd15c083a, 0xbd3c87e82e5eb35542964b849625e);
    e := SqR(2, e, 0x17a790fd05cbd66aa852c97092c4bc, 0xcfcdec0962eade567024a8d604b99);
    e := SqR(2, e, 0xcfcdec0962eade567024a8d604b99, 0x3358c7d520f101bdd4019ad008bb3);
    e := SqR(2, e, 0x3358c7d520f101bdd4019ad008bb3, 0x19916ca913fef297f95d7491a1321);
    e := SqUpR(2, e, 0x19916ca913fef297f95d7491a1321, 0x7de4a4befc0b8e06c6251a1a055a9);
    e := SqR(2, e, 0xfbc9497df8171c0d8c4a34340ab52, 0xb4a424de1afb1ae326c93793cae18);
    e := SqR(2, e, 0xb4a424de1afb1ae326c93793cae18, 0xe581b75439e4047267ab8b109d19b);
    e := SqUpR(2, e, 0xe581b75439e4047267ab8b109d19b, 0x38bf566517efde3386d0c461dd44e);
    e := SqUpR(2, e, 0x717eacca2fdfbc670da188c3ba89c, 0xd9796093c87d053b4f3d815af7ff7);
    e := SqUpR(2, e, 0x1b2f2c12790fa0a769e7b02b5effee, 0xc4e8e984475cc7cc003ed7e18d657);
    e := SqR(2, e, 0x189d1d3088eb98f98007dafc31acae, 0xe6ff50d40d63dd8d999d4343d1ddc);
    e := SqUpR(2, e, 0xe6ff50d40d63dd8d999d4343d1ddc, 0xb36299f214da591c5bb3f5ae8382b);
    e := SqR(2, e, 0x166c533e429b4b238b767eb5d07056, 0x5107a5d472a6ab92b839cc55dfa66);
    e := SqR(2, e, 0x5107a5d472a6ab92b839cc55dfa66, 0xccee1a3728c2cca2066063713cacf);
    e := SqR(2, e, 0xccee1a3728c2cca2066063713cacf, 0x95675ccee765b64e2561c22eeadf7);
    e := SqR(2, e, 0x95675ccee765b64e2561c22eeadf7, 0x91055418ccd967300b4455d41d03c);
    e := SqUpR(2, e, 0x91055418ccd967300b4455d41d03c, 0x5fc87bb2bf7140a36487437b76d45);
    e := SqR(2, e, 0xbf90f7657ee28146c90e86f6eda8a, 0x89b04009c1d413e6ec8f21761fc2f);
    e := SqUpR(2, e, 0x89b04009c1d413e6ec8f21761fc2f, 0xdf843fddb2d46f4dae275c30a7d0b);
    e := SqUpR(2, e, 0x1bf087fbb65a8de9b5c4eb8614fa16, 0x7ea10c7f2850727918e851ed8b348);
    e := SqUpR(2, e, 0xfd4218fe50a0e4f231d0a3db16690, 0x5f6443f7969a24ac18e3f4e58606);
    e := SqUpR(2, e, 0xbec887ef2d34495831c7e9cb0c0c, 0xca8b3ebad5137da30d01c570c7a0b);
    e := SqUpR(2, e, 0x195167d75aa26fb461a038ae18f416, 0xd2a63a892fdb742051c599f9226ee);
    e := SqR(2, e, 0x1a54c75125fb6e840a38b33f244ddc, 0x97e2eb210f9b701674c604cb7b4b0);
    e := SqUpR(2, e, 0x97e2eb210f9b701674c604cb7b4b0, 0x76adc25b61616e4762a2b423e71c);
    e := SqUpR(2, e, 0xed5b84b6c2c2dc8ec5456847ce38, 0xaf5fa040e388ae8d7dbdd9d629a46);
    e := SqUpR(2, e, 0x15ebf4081c7115d1afb7bb3ac5348c, 0x75be0670fab3e016750607c571d0a);
    e := SqUpR(2, e, 0xeb7c0ce1f567c02cea0c0f8ae3a14, 0xcbc297e9bd60b15ee9efd8c84152);
    e := SqR(2, e, 0x197852fd37ac162bdd3dfb19082a4, 0x43133a35b9397f8224386bd9ee698);
  }

  /** The witness of 75707 for R. */
  lemma ChainR_75707()
    ensures Cong(Power(2, 0xc9405a7c6ddff89d0bef47da0), 0xb52295a2da9f8731db89340ad8f16, R)
  {
    hide Cong, Power;
    ChainR_75707_2();
    var e := 0x19280b4f8dbbff13a17de;
    e := SqUpR(2, e, 0x43133a35b9397f8224386bd9ee698, 0x192629f1661c32f2820387b54e122);
    e := SqR(2, e, 0x324c53e2cc3865e504070f6a9c244, 0xc2dca9f6e2ccd8164d68cec511f2a);
    e := SqR(2, e, 0xc2dca9f6e2ccd8164d68cec511f2a, 0x23b6f708aae852aff6850b6091b93);
    e := SqR(2, e, 0x23b6f708aae852aff6850b6091b93, 0x2eea35faf60601f4df11bdf78e5e1);
    e := SqUpR(2, e, 0x2eea35faf60601f4df11bdf78e5e1, 0x48d41b60acfb77c3d6526ab62e698);
    e := SqUpR(2, e, 0x91a836c159f6ef87aca4d56c5cd30, 0xd899564ec59c0bf8cf5f5ba01b865);
    e := SqUpR(2, e, 0x1b132ac9d8b3817f19ebeb740370ca, 0x565ef552a8de2592d03c451762f88);
    e := SqUpR(2, e, 0xacbdeaa551bc4b25a0788a2ec5f10, 0x7686cee826490884a81952d5c0205);
    e := SqUpR(2, e, 0xed0d9dd04c9211095032a5ab8040a, 0x51b9b566f3445fc1865e54a4b9e1e);
    e := SqR(2, e, 0xa3736acde688bf830cbca94973c3c, 0xdda4a108574188f56a46eefcec36f);
    e := SqUpR(2, e, 0xdda4a108574188f56a46eefcec36f, 0xe5244d139cb0d7bb132a95b3590d4);
    e := SqUpR(2, e, 0x1ca489a273961af7626552b66b21a8, 0x3015a88a3f3d2306c4bb88ef6d4ec);
    e := SqR(2, e, 0x602b51147e7a460d897711deda9d8, 0x49f4c4e4cbb0be1071d295caf6c07);
    e := SqUpR(2, e, 0x49f4c4e4cbb0be1071d295caf6c07, 0xdd4e1b4654e6eba88023dc577227);
    e := SqR(2, e, 0x1ba9c368ca9cdd7510047b8aee44e, 0xa79d2c0c2d17f70716c20690a5c72);
    e := SqR(2, e, 0xa79d2c0c2d17f70716c20690a5c72, 0x2c023cb124d9614045c3f8f91116b);
    e := SqR(2, e, 0x2c023cb124d9614045c3f8f91116b, 0x251a92a95f2f0a078c3992a3e895d);
    e := SqR(2, e, 0x251a92a95f2f0a078c3992a3e895d, 0x75e9524415a8afa2150eed75a3bfd);
    e := SqR(2, e, 0x75e9524415a8afa2150eed75a3bfd, 0xb52295a2da9f8731db89340ad8f16);
  }

  /** It has order 75707. */
  lemma OrderR_75707()
    ensures Cong(Power(0xb52295a2da9f8731db89340ad8f16, 75707), 1, R)
  {
    hide Cong, Power;
    Start(0xb52295a2da9f8731db89340ad8f16, R);
    var e := 1;
    e := SqR(0xb52295a2da9f8731db89340ad8f16, e, 0xb52295a2da9f8731db89340ad8f16, 0x3b62fbf0454bfca4ca95012ca0a4e);
    e := SqR(0xb52295a2da9f8731db89340ad8f16, e, 0x3b62fbf0454bfca4ca95012ca0a4e, 0x2174c0a841e2df47e13363bef9ea2);
    e := SqR(0xb52295a2da9f8731db89340ad8f16, e, 0x2174c0a841e2df47e13363bef9ea2, 0x162044752e77e43e9bc25f0087389);
    e := UpR(0xb52295a2da9f8731db89340ad8f16, e, 0x162044752e77e43e9bc25f0087389, 0x74ab5e34e8fea10de53c9c15967e5);
    e := SqR(0xb52295a2da9f8731db89340ad8f16, e, 0x74ab5e34e8fea10de53c9c15967e5, 0xcfd659340de94c881dab80db7037e);
    e := SqR(0xb52295a2da9f8731db89340ad8f16, e, 0xcfd659340de94c881dab80db7037e, 0x4665a56cda2cd66895218e6498bbb);
    e := SqR(0xb52295a2da9f8731db89340ad8f16, e, 0x4665a56cda2cd66895218e6498bbb, 0x9afff552034fdcc49de10421dc423);
    e := UpR(0xb52295a2da9f8731db89340ad8f16, e, 0x9afff552034fdcc49de10421dc423, 0x282892bd7af02fdc6b74bc6a00cb5);
    e := SqR(0xb52295a2da9f8731db89340ad8f16, e, 0x282892bd7af02fdc6b74bc6a00cb5, 0x39c8e2e9872e02cedaed1cc609b3e);
    e := UpR(0xb52295a2da9f8731db89340ad8f16, e, 0x39c8e2e9872e02cedaed1cc609b3e, 0xadc8d7fe15e40d703b1ef31a9a854);
    e := SqR(0xb52295a2da9f8731db89340ad8f16, e, 0xadc8d7fe15e40d703b1ef31a9a854, 0xcbc8570c136b9a0c7ae9970f3f752);
    e := UpR(0xb52295a2da9f8731db89340ad8f16, e, 0xcbc8570c136b9a0c7ae9970f3f752, 0x865f84902bb650cd8fd9bc7728748);
    e := SqR(0xb52295a2da9f8731db89340ad8f16, e, 0x865f84902bb650cd8fd9bc7728748, 0x264c023b8095807404db010adb004);
    e := UpR(0xb52295a2da9f8731db89340ad8f16, e, 0x264c023b8095807404db010adb004, 0x7f1a809ed5b9b36afa3559e8d0e8a);
    e := SqR(0xb52295a2da9f8731db89340ad8f16, e, 0x7f1a809ed5b9b36afa3559e8d0e8a, 0xb9bb4aa8ec80f1b5aa6826013cdb6);
    e := SqR(0xb52295a2da9f8731db89340ad8f16, e, 0xb9bb4aa8ec80f1b5aa6826013cdb6, 0xe00bb0a5a9dda5722bf7786309ac8);
    e := UpR(0xb52295a2da9f8731db89340ad8f16, e, 0xe00bb0a5a9dda5722bf7786309ac8, 0x3744d624a468fd4305d47d54917dd);
    e := SqR(0xb52295a2da9f8731db89340ad8f16, e, 0x3744d624a468fd4305d47d54917dd, 0x548a5b7c0cbd34264d241307fc4f7);
    e := UpR(0xb52295a2da9f8731db89340ad8f16, e, 0x548a5b7c0cbd34264d241307fc4f7, 0x32a1a63676b5a7639cbf583865565);
    e := SqR(0xb52295a2da9f8731db89340ad8f16, e, 0x32a1a63676b5a7639cbf583865565, 0x770354ac258e66c05115a543f829a);
    e := UpR(0xb52295a2da9f8731db89340ad8f16, e, 0x770354ac258e66c05115a543f829a, 0x70bf163d20d729e8374cd4e4286d6);
    e := SqR(0xb52295a2da9f8731db89340ad8f16, e, 0x70bf163d20d729e8374cd4e4286d6, 0x8fb529b4e1ef48735493911e8a902);
    e := SqR(0xb52295a2da9f8731db89340ad8f16, e, 0x8fb529b4e1ef48735493911e8a902, 0x52743f5e8a795d938808c2ddbeb88);
    e := UpR(0xb52295a2da9f8731db89340ad8f16, e, 0x52743f5e8a795d938808c2ddbeb88, 0x575020802d820ae722f9f7eb09287);
    e := SqR(0xb52295a2da9f8731db89340ad8f16, e, 0x575020802d820ae722f9f7eb09287, 0xbe6e9b0995d139d480173eb35371e);
    e := UpR(0xb52295a2da9f8731db89340ad8f16, e, 0xbe6e9b0995d139d480173eb35371e, 1);
  }

  lemma ChainR_S_1()
    ensures Cong(Power(2, 0x110bac45b5a), 0x52ce25a2a94ee92c92fefeed83f4, R)
  {
    hide Cong, Power;
    Start(2, R);
    var e := 1;
    e := SqR(2, e, 2, 4);
    e := SqR(2, e, 4, 0x10);
    e := SqR(2, e, 0x10, 0x100);
    e := SqUpR(2, e, 0x100, 0x10000);
    e := SqR(2, e, 0x20000, 0x400000000);
    e := SqR(2, e, 0x400000000, 0x100000000000000000);
    e := SqR(2, e, 0x100000000000000000, 0x72c84b3dffef4313c76ee90369f15);
    e := SqR(2, e, 0x72c84b3dffef4313c76ee90369f15, 0x17dbb00000);
    e := SqUpR(2, e, 0x17dbb00000, 0x2393626990000000000);
    e := SqR(2, e, 0x4726c4d320000000000, 0xb14f313a2832003e0df7609d25e6c);
    e := SqUpR(2, e, 0xb14f313a2832003e0df7609d25e6c, 0x543466a71f9bd4e088dac66a9c7d3);
    e := SqUpR(2, e, 0xa868cd4e3f37a9c111b58cd538fa6, 0xd329992f47e36107a58c385d5125f);
    e := SqUpR(2, e, 0x1a653325e8fc6c20f4b1870baa24be, 0x4f0829ae57fc1bebe2948d53a8a0f);
    e := SqR(2, e, 0x9e10535caff837d7c5291aa75141e, 0xda7fef63e9d7012b44eb0b43a967b);
    e := SqUpR(2, e, 0xda7fef63e9d7012b44eb0b43a967b, 0x32894f15c04cf577b8ac3391738c8);
    e := SqR(2, e, 0x65129e2b8099eaef71586722e7190, 0x772a1cbc4df204759de3128d27123);
    e := SqUpR(2, e, 0x772a1cbc4df204759de3128d27123, 0x62d0ac7850cc642273c6293c73f29);
    e := SqUpR(2, e, 0xc5a158f0a198c844e78c5278e7e52, 0xbff06df6a1c07c403e0478397765f);
    e := SqR(2, e, 0x17fe0dbed4380f8807c08f072eecbe, 0xa27df394215b46f6c316c3cc1aecd);
    e := SqR(2, e, 0xa27df394215b46f6c316c3cc1aecd, 0xa408a65f29ca1e95758135af3e099);
    e := SqR(2, e, 0xa408a65f29ca1e95758135af3e099, 0x1500cbd7bb1659c25e95a8d280a0d);
    e := SqUpR(2, e, 0x1500cbd7bb1659c25e95a8d280a0d, 0x9e625f3c847ce0859d87c27022fcf);
    e := SqR(2, e, 0x13cc4be7908f9c10b3b0f84e045f9e, 0x70393e8f73104ca3641dc4c0d9ecf);
    e := SqR(2, e, 0x70393e8f73104ca3641dc4c0d9ecf, 0x4ea08212a042d1f9374dd1823950b);
    e := SqR(2, e, 0x4ea08212a042d1f9374dd1823950b, 0xb2171325b2f1c1a49ecc867d5f24f);
    e := SqUpR(2, e, 0xb2171325b2f1c1a49ecc867d5f24f, 0xd4017427d912a62b07699189c54de);
    e := SqR(2, e, 0x1a802e84fb2254c560ed323138a9bc, 0xbc4e928b1eee0a099e939a6915cba);
    e := SqUpR(2, e, 0xbc4e928b1eee0a099e939a6915cba, 0x72ab9d707b6a5b81ef77d4bddbd1a);
    e := SqUpR(2, e, 0xe5573ae0f6d4b703deefa97bb7a34, 0x88419caa31061532b1320ca68a649);
    e := SqR(2, e, 0x110833954620c2a656264194d14c92, 0x1bc45971a75ce48d787f1c94a000d);
    e := SqUpR(2, e, 0x1bc45971a75ce48d787f1c94a000d, 0xb42873cefddfeead28daf2e2cc2e6);
    e := SqUpR(2, e, 0x16850e79dfbbfdd5a51b5e5c5985cc, 0xad3d383eea85c0408fcde6eed5bd1);
    e := SqR(2, e, 0x15a7a707dd50b80811f9bcdddab7a2, 0x194edff57d80e5c9761410876add);
    e := SqUpR(2, e, 0x194edff57d80e5c9761410876add, 0x26af1dea4a2fc03f3b1c6001439cc);
    e := SqR(2, e, 0x4d5e3bd4945f807e7638c00287398, 0x9655fe00e0ab5d432b07544c38a1e);
    e := SqUpR(2, e, 0x9655fe00e0ab5d432b07544c38a1e, 0x2448fbf4306964e9116999f2ad5b3);
    e := SqUpR(2, e, 0x4891f7e860d2c9d222d333e55ab66, 0xa8ecba6b0b750d4d1fe13d9050a13);
    e := SqR(2, e, 0x151d974d616ea1a9a3fc27b20a1426, 0x491c3082d7b3a52763f0c34935a32);
    e := SqUpR(2, e, 0x491c3082d7b3a52763f0c34935a32, 0xe6b1f823b9b97f7e1d7e3ddbc4890);
    e := SqR(2, e, 0x1cd63f0477372fefc3afc7bb789120, 0x52ce25a2a94ee92c92fefeed83f4);
  }

  /** The witness of S for R. */
  lemma ChainR_S()
    ensures Cong(Power(2, 0x2217588b6b4f717a0), 0xaedd80ab27e8de3ca5f2fb22d5403, R)
  {
    hide Cong, Power;
    ChainR_S_1();
    var e := 0x110bac45b5a;
    e := SqR(2, e, 0x52ce25a2a94ee92c92fefeed83f4, 0xb2575d2efa93bf6464d7cad7b9ef9);
    e := SqUpR(2, e, 0xb2575d2efa93bf6464d7cad7b9ef9, 0x6a86fea11bce5cf7f11ad6cf917f8);
    e := SqUpR(2, e, 0xd50dfd42379cb9efe235ad9f22ff0, 0x87c98c14b631522232e9013ba65c4);
    e := SqUpR(2, e, 0x10f9318296c62a44465d202774cb88, 0x144b57ea3964f3c9b536171156624);
    e := SqUpR(2, e, 0x2896afd472c9e7936a6c2e22acc48, 0xb0000072ce37cb078ef309989e8ef);
    e := SqR(2, e, 0x1600000e59c6f960f1de613313d1de, 0xba83b9ca1b9b2ea43e1482f95f6e);
    e := SqUpR(2, e, 0xba83b9ca1b9b2ea43e1482f95f6e, 0x3be682ab371943be37d9067da09d8);
    e := SqUpR(2, e, 0x77cd05566e32877c6fb20cfb413b0, 0x8a4c23b170d0eed72eaca71150300);
    e := SqUpR(2, e, 0x114984762e1a1ddae5d594e22a0600, 0xe3e5002d5c1f7eb20ab3b8c35117f);
    e := SqR(2, e, 0x1c7ca005ab83efd6415677186a22fe, 0xa31574edd1a0be7dedc6b54c7372d);
    e := SqR(2, e, 0xa31574edd1a0be7dedc6b54c7372d, 0x86959b1bdaff2d9081466493d02d3);
    e := SqR(2, e, 0x86959b1bdaff2d9081466493d02d3, 0x23214b91898e53491cdacb364abd9);
    e := SqUpR(2, e, 0x23214b91898e53491cdacb364abd9, 0x916ae41d56cc31aaac759ef82ecc4);
    e := SqR(2, e, 0x122d5c83aad98635558eb3df05d988, 0xbafbde5ebc386be1553b0f6390429);
    e := SqUpR(2, e, 0xbafbde5ebc386be1553b0f6390429, 0x4044a901bd66311128f5226789dbd);
    e := SqUpR(2, e, 0x808952037acc622251ea44cf13b7a, 0x7e4e5f864b6f8b389c558879ea3a9);
    e := SqUpR(2, e, 0xfc9cbf0c96df167138ab10f3d4752, 0x898a626bd59d3dca6dcc6eaa45649);
    e := SqUpR(2, e, 0x11314c4d7ab3a7b94db98dd548ac92, 0x6f11e759d3d04c4b2d9552dd1412f);
    e := SqR(2, e, 0xde23ceb3a7a098965b2aa5ba2825e, 0x5d1f3bbb944c1e87f26a0cc7e9fb);
    e := SqUpR(2, e, 0x5d1f3bbb944c1e87f26a0cc7e9fb, 0x68a6493db2c8684ccc43518a60b41);
    e := SqR(2, e, 0xd14c927b6590d0999886a314c1682, 0x89b84ebdbb5f3ab59c3b0ef8b7512);
    e := SqR(2, e, 0x89b84ebdbb5f3ab59c3b0ef8b7512, 0x4e306d573a851f226efe4f75ae6ec);
    e := SqR(2, e, 0x4e306d573a851f226efe4f75ae6ec, 0xcacb8bb8eee5d766f99fca73955b2);
    e := SqR(2, e, 0xcacb8bb8eee5d766f99fca73955b2, 0x85962565b5b70a66c6e9c7ccdeab);
    e := SqR(2, e, 0x85962565b5b70a66c6e9c7ccdeab, 0xaedd80ab27e8de3ca5f2fb22d5403);
  }

  lemma PrimeR()
    ensures Prime(R)
  {
    hide Cong, Power, Prime, Witness;
    PrimeS(); Prime75707();
    ChainR_75707(); OrderR_75707(); ChainR_S();
    WholePower(R, 75707, 2, 0xc9405a7c6ddff89d0bef47da0, 0xb52295a2da9f8731db89340ad8f16);
    MakeWitness(R, 75707, 2, 0xc9405a7c6ddff89d0bef47da0, 0xb52295a2da9f8731db89340ad8f16, 0x1bb0fee20f00433b82723f09a47f3);
    MakeWitness(R, S, 2, 0x2217588b6b4f717a0, 0xaedd80ab27e8de3ca5f2fb22d5403, 0xe5e342b4c0a3d507894bab5f20e8b);
    Pocklington2(R, S, 0xaedd80ab27e8de3ca5f2fb22d5403, 75707, 0xb52295a2da9f8731db89340ad8f16);
  }

  // ---------------------------------------------------------------- Q

  lemma ChainQ_353_1()
    ensures Cong(Power(2, 0x1f208d7e032), 0x32f10b0ade2e1cc1199acc9bddeb689211f2133b7f09cb94587fbf3b732, Q)
  {
    hide Cong, Power;
    Start(2, Q);
    var e := 1;
    e := SqUpQ(2, e, 2, 4);
    e := SqUpQ(2, e, 8, 0x40);
    e := SqUpQ(2, e, 0x80, 0x4000);
    e := SqUpQ(2, e, 0x8000, 0x40000000);
    e := SqQ(2, e, 0x80000000, 0x4000000000000000);
    e := SqQ(2, e, 0x4000000000000000, 0x10000000000000000000000000000000);
    e := SqUpQ(2, e, 0x10000000000000000000000000000000, 0x5b354298dcf267012f77cbb331f594d5d3952c570aee46bc26914569237);
    e := SqQ(2, e, 0xb66a8531b9e4ce025eef976663eb29aba72a58ae15dc8d784d228ad246e, 0x238b581228ed8642582545f8a82ce188090b1329735190458f07abfdadd);
    e := SqQ(2, e, 0x238b581228ed8642582545f8a82ce188090b1329735190458f07abfdadd, 0x84e7f47678045ea3cee968ac0d706bd3d8e8997128f3399681b3151f184);
    e := SqQ(2, e, 0x84e7f47678045ea3cee968ac0d706bd3d8e8997128f3399681b3151f184, 0x5f4b5abee4108d267b799fcfd6d16c39734c32c92baf617f26350e9f37f);
    e := SqQ(2, e, 0x5f4b5abee4108d267b799fcfd6d16c39734c32c92baf617f26350e9f37f, 0xe35fa931a00000000000000000000000000000000000000000000000);
    e := SqQ(2, e, 0xe35fa931a00000000000000000000000000000000000000000000000, 0x1f8def8808b02452c9a0000000000000000000000000000000);
    e := SqUpQ(2, e, 0x1f8def8808b02452c9a0000000000000000000000000000000, 0x1575f18d6129fa1e6585996110415f30cbfa80033048bb3a01a1d25b47f);
    e := SqQ(2, e, 0x2aebe31ac253f43ccb0b32c22082be6197f50006609176740343a4b68fe, 0x351f6627265ad0d5aa075b3f64228cb2b05bf8446f790432acd15db857c);
    e := SqQ(2, e, 0x351f6627265ad0d5aa075b3f64228cb2b05bf8446f790432acd15db857c, 0x21bebc111e09ee8de44e0f88f855e35a4f57a79f51cdb750c6adf605ff0);
    e := SqQ(2, e, 0x21bebc111e09ee8de44e0f88f855e35a4f57a79f51cdb750c6adf605ff0, 0x9e82578df6d347188db5c6011d41bbbf40da005058d1aa202df816f217a);
    e := SqUpQ(2, e, 0x9e82578df6d347188db5c6011d41bbbf40da005058d1aa202df816f217a, 0x650c30cdaf5adbbfc781acfcd48066df4218e13e641d0949dfbb68caa38);
    e := SqUpQ(2, e, 0xca18619b5eb5b77f8f0359f9a900cdbe8431c27cc83a1293bf76d195470, 0x173ce0c5fa331087cf69ca43867bac135c7c45c795e04fe6bcdee631d6c);
    e := SqQ(2, e, 0x2e79c18bf466210f9ed394870cf75826b8f88b8f2bc09fcd79bdcc63ad8, 0x969912b2273d1b0d20026812591d549c958dfe6d0f62299e6704fac89ee);
    e := SqUpQ(2, e, 0x969912b2273d1b0d20026812591d549c958dfe6d0f62299e6704fac89ee, 0x1b84cd401f5d512d0fd691d56ccce32f5e406b300ba77c20ad91976c48b);
    e := SqQ(2, e, 0x37099a803ebaa25a1fad23aad999c65ebc80d660174ef8415b232ed8916, 0x12efef843ad92b7966a3bf007a00da8bcca704386883ce09d61a0511514);
    e := SqUpQ(2, e, 0x12efef843ad92b7966a3bf007a00da8bcca704386883ce09d61a0511514, 0x6a4dcee23f6f27ed0839d40c8d0d51c4670fa5ac5b3c687b297d5c8dba9);
    e := SqUpQ(2, e, 0xd49b9dc47ede4fda1073a8191a1aa388ce1f4b58b678d0f652fab91b752, 0x20fbd44b41ca7aeb97948c54773698ef8c0e0a55a0ec31b65ee259aa68e);
    e := SqUpQ(2, e, 0x41f7a8968394f5d72f2918a8ee6d31df181c14ab41d8636cbdc4b354d1c, 0xf51ff5dd652dc847129ba3cef21b2aaeef50b13dea0605c6e3e7b23a81);
    e := SqUpQ(2, e, 0x1ea3febbaca5b908e2537479de436555ddea1627bd40c0b8dc7cf647502, 0x61d8c4135a91ccf65d6a59b0b6fa6246e4a32ebc96774dd0e55f6c9ce7d);
    e := SqUpQ(2, e, 0xc3b18826b52399ecbad4b3616df4c48dc9465d792cee9ba1cabed939cfa, 0x97f42725d24353960e8df99a17311911270fc81417a7c767f59ca3e76d6);
    e := SqUpQ(2, e, 0x12fe84e4ba486a72c1d1bf3342e6232224e1f90282f4f8ecfeb3947cedac, 0x723f33fbf990cca3b4ce7a0001855e5cfab21338e405022408a0e85d1e4);
    e := SqQ(2, e, 0xe47e67f7f3219947699cf400030abcb9f5642671c80a04481141d0ba3c8, 0x84e9f420042190ae7459d234ff66c22d64ad1ae7b6a3579e4d6cd1cad30);
    e := SqQ(2, e, 0x84e9f420042190ae7459d234ff66c22d64ad1ae7b6a3579e4d6cd1cad30, 0x4aee4fbe6f244d675b8567f12c1c136bb2b0f6ac9fa82a6687c17010e58);
    e := SqQ(2, e, 0x4aee4fbe6f244d675b8567f12c1c136bb2b0f6ac9fa82a6687c17010e58, 0xe940144510f5a4465c6635a9265507d3d6f77b1d658617f778030c7348);
    e := SqQ(2, e, 0xe940144510f5a4465c6635a9265507d3d6f77b1d658617f778030c7348, 0x3977d617cd8cdceb5d1d29603786bbb6fe7c34e1bccbcdc50ec5c2848cb);
    e := SqQ(2, e, 0x3977d617cd8cdceb5d1d29603786bbb6fe7c34e1bccbcdc50ec5c2848cb, 0xf4867b6603c2e6e82a7d77ad1a873649197eca58c4ec29427c9960b46);
    e := SqQ(2, e, 0xf4867b6603c2e6e82a7d77ad1a873649197eca58c4ec29427c9960b46, 0x2a457dfe4909189e1631e88afafda53c4c79323832b77cd33201566488b);
    e := SqQ(2, e, 0x2a457dfe4909189e1631e88afafda53c4c79323832b77cd33201566488b, 0x3bcc86164bff87ab05e8467b52dce6719f03c3881576797847f979ed042);
    e := SqUpQ(2, e, 0x3bcc86164bff87ab05e8467b52dce6719f03c3881576797847f979ed042, 0x8522ec3cc47f4bd1519ca85902fa0ea3cc1b91d43b9250d7c9c668934ba);
    e := SqUpQ(2, e, 0x10a45d87988fe97a2a33950b205f41d47983723a87724a1af938cd126974, 0x64381a37c6e83df6e6b1cedd8173a70d2230ce2e5f5c4aaed377de4bbae);
    e := SqQ(2, e, 0xc870346f8dd07bedcd639dbb02e74e1a44619c5cbeb8955da6efbc9775c, 0x55f78cbae5d720deadc0d5f51de282f682d2b1dd068f880479e5945bade);
    e := SqQ(2, e, 0x55f78cbae5d720deadc0d5f51de282f682d2b1dd068f880479e5945bade, 0x7d767f1aeaacf176f2dc18a8d9b0d124843d2faf4dcc1566b0a1a291a42);
    e := SqUpQ(2, e, 0x7d767f1aeaacf176f2dc18a8d9b0d124843d2faf4dcc1566b0a1a291a42, 0x6584706cb38f7ff9fe67f81d690bbd9ce9b9f4ca3da75788ea0c1012d25);
    e := SqQ(2, e, 0xcb08e0d9671efff3fccff03ad2177b39d373e9947b4eaf11d4182025a4a, 0x32f10b0ade2e1cc1199acc9bddeb689211f2133b7f09cb94587fbf3b732);
  }

  lemma ChainQ_353_2()
    ensures Cong(Power(2, 0x1f208d7e03238088ea467), 0x4eff79d329e6e78789441f7d36540235d89658c7d159c2c55f285606f42, Q)
  {
    hide Cong, Power;
    ChainQ_353_1();
    var e := 0x1f208d7e032;
    e := SqQ(2, e, 0x32f10b0ade2e1cc1199acc9bddeb689211f2133b7f09cb94587fbf3b732, 0x7e556b50dd2375d109509db4cef82ecf1bc31308a6f4ec116abb036e01d);
    e := SqQ(2, e, 0x7e556b50dd2375d109509db4cef82ecf1bc31308a6f4ec116abb036e01d, 0x7bd40d443958f9cda7a5ce5f17218f78162e88ee79be646d6f26b1bee1);
    e := SqUpQ(2, e, 0x7bd40d443958f9cda7a5ce5f17218f78162e88ee79be646d6f26b1bee1, 0x345ef00e5cf0efca2bc4d87cfa963829a72670a296f911af5675ea07f7f);
    e := SqUpQ(2, e, 0x68bde01cb9e1df945789b0f9f52c70534e4ce1452df2235eacebd40fefe, 0x72ed103e638ed090d0654f9be914f489751012f5435186b7fe4fac55257);
    e := SqUpQ(2, e, 0xe5da207cc71da121a0ca9f37d229e912ea2025ea86a30d6ffc9f58aa4ae, 0x10db00d99857379fcdbefd13aa0c19f26cc455c58a096e1fce42697b116);
    e := SqQ(2, e, 0x21b601b330ae6f3f9b7dfa27541833e4d988ab8b1412dc3f9c84d2f622c, 0x2a87e6ea4292ed868a8f54e4d21b8b90bc6043b90c6503001001545bdc6);
    e := SqQ(2, e, 0x2a87e6ea4292ed868a8f54e4d21b8b90bc6043b90c6503001001545bdc6, 0xca3aab6a93ab05285370172e9bd3aa971faa4eb95e2b46ca3b737ff02b);
    e := SqQ(2, e, 0xca3aab6a93ab05285370172e9bd3aa971faa4eb95e2b46ca3b737ff02b, 0xa8163e353a2dd94f4e90954d7e7dd002289f32a5934a850ae8fc3a2c9a8);
    e := SqQ(2, e, 0xa8163e353a2dd94f4e90954d7e7dd002289f32a5934a850ae8fc3a2c9a8, 0x60e6323b901c7d74dc2ebad645728dcc19a59fb77bdb0e7fdaac794c8f9);
    e := SqQ(2, e, 0x60e6323b901c7d74dc2ebad645728dcc19a59fb77bdb0e7fdaac794c8f9, 0x7ee17cece21eda9386865b5c8cf659453da85f46a3c48f8e6b700642442);
    e := SqQ(2, e, 0x7ee17cece21eda9386865b5c8cf659453da85f46a3c48f8e6b700642442, 0x70c02e6a3f6ae073f7cc007acf545cd74d20802123688bb17f2e2495918);
    e := SqQ(2, e, 0x70c02e6a3f6ae073f7cc007acf545cd74d20802123688bb17f2e2495918, 0x4ac9087459f098c2d0a4aca1c598287a307e1ce1870bd47a73068ad8723);
    e := SqUpQ(2, e, 0x4ac9087459f098c2d0a4aca1c598287a307e1ce1870bd47a73068ad8723, 0x2807eb243680c970163aba3d34bf60e73809dc348ce8034e135d2d6702d);
    e := SqQ(2, e, 0x500fd6486d0192e02c75747a697ec1ce7013b86919d0069c26ba5ace05a, 0x6abe490c32b3f369bdec01d3290be6e2e60d5595f67f78a3e76197da50d);
    e := SqQ(2, e, 0x6abe490c32b3f369bdec01d3290be6e2e60d5595f67f78a3e76197da50d, 0x6b8b0149483ee2de6e826b9784da18b2919b80d3eacb670ff4bd132f996);
    e := SqQ(2, e, 0x6b8b0149483ee2de6e826b9784da18b2919b80d3eacb670ff4bd132f996, 0x86ec8c3086943850443cdb575217a26bcc94add2c5326f9ca5e1acf0ae4);
    e := SqUpQ(2, e, 0x86ec8c3086943850443cdb575217a26bcc94add2c5326f9ca5e1acf0ae4, 0x1bd0e6852f57a43ba20e3ef06fd172a5183421c3591f62913f58a194d1e);
    e := SqQ(2, e, 0x37a1cd0a5eaf4877441c7de0dfa2e54a30684386b23ec5227eb14329a3c, 0x4e6c8f421026da53ec87c34050a8d27a9e4c9aa7cbbf81f8984a2282d68);
    e := SqQ(2, e, 0x4e6c8f421026da53ec87c34050a8d27a9e4c9aa7cbbf81f8984a2282d68, 0xa5a04e1d623f7144827a47391447a213114ba168744e7a4f55e9dcf621f);
    e := SqQ(2, e, 0xa5a04e1d623f7144827a47391447a213114ba168744e7a4f55e9dcf621f, 0x3aec948156a38531b9c834b4e14d82b66b345961ad3bf29296931860d61);
    e := SqUpQ(2, e, 0x3aec948156a38531b9c834b4e14d82b66b345961ad3bf29296931860d61, 0x39e73f7e76fb600aef89693812ffd582c2d21174d02bc8b463b740c8143);
    e := SqUpQ(2, e, 0x73ce7efcedf6c015df12d27025ffab0585a422e9a0579168c76e8190286, 0x1469d500cf6860938ad767ebe74099d94b36c47a31d20bed1a1497c21f8);
    e := SqUpQ(2, e, 0x28d3aa019ed0c12715aecfd7ce8133b2966d88f463a417da34292f843f0, 0x74e4d8728d63fba45212e1009628ccd755d433eab80f7ff6a4f8d96ba63);
    e := SqQ(2, e, 0xe9c9b0e51ac7f748a425c2012c5199aeaba867d5701effed49f1b2d74c6, 0x9c51ac12eada2120871fb21e728835604c104fedf593ab6614ad7ff4bbc);
    e := SqUpQ(2, e, 0x9c51ac12eada2120871fb21e728835604c104fedf593ab6614ad7ff4bbc, 0x78a09a7d752a8ce228aeaacd96ab75837b6e972f9ae7d6b3074f0904a4b);
    e := SqQ(2, e, 0xf14134faea5519c4515d559b2d56eb06f6dd2e5f35cfad660e9e1209496, 0x1f58f51950eced267e7a2745f6650ad467d35a4d64de0a310d99ca6e835);
    e := SqUpQ(2, e, 0x1f58f51950eced267e7a2745f6650ad467d35a4d64de0a310d99ca6e835, 0x38870513833e5a7d8d033c8f5aecec440f422ddc1b02882cc582544c1ad);
    e := SqQ(2, e, 0x710e0a27067cb4fb1a06791eb5d9d8881e845bb8360510598b04a89835a, 0x827f37b665c85900e7147d6db0fb4482d30ebe204d90619b75257cf36be);
    e := SqQ(2, e, 0x827f37b665c85900e7147d6db0fb4482d30ebe204d90619b75257cf36be, 0xa7deaac118f63a69e67e3e92d311cd14c1252bb6ea3e09f1ba89d45ee74);
    e := SqUpQ(2, e, 0xa7deaac118f63a69e67e3e92d311cd14c1252bb6ea3e09f1ba89d45ee74, 0x69187ce787d8a35423671852ad22201ba728ab4407f38fe16fe0d719937);
    e := SqQ(2, e, 0xd230f9cf0fb146a846ce30a55a4440374e5156880fe71fc2dfc1ae3326e, 0x11ea84454c8a08bd66b5162f0a7274274df2120ec89182589dc74074c56);
    e := SqQ(2, e, 0x11ea84454c8a08bd66b5162f0a7274274df2120ec89182589dc74074c56, 0x4c7eed767ce233f7e0102711f68bf9cc3d7cc232f149255fc1a721abe9c);
    e := SqQ(2, e, 0x4c7eed767ce233f7e0102711f68bf9cc3d7cc232f149255fc1a721abe9c, 0x25175617972eed3a670fc5d52ad601c3d3d85df03e1d67e5cf020f0eec);
    e := SqUpQ(2, e, 0x25175617972eed3a670fc5d52ad601c3d3d85df03e1d67e5cf020f0eec, 0x2291e7fdfcc15eae2059b21c13792d5b80a275b18270035284afcf217f);
    e := SqUpQ(2, e, 0x4523cffbf982bd5c40b3643826f25ab70144eb6304e006a5095f9e42fe, 0x770637cf153c35726719403cc594da86d18d0d3c71269e58bba27b6447e);
    e := SqQ(2, e, 0xee0c6f9e2a786ae4ce3280798b29b50da31a1a78e24d3cb17744f6c88fc, 0x49ba86df70e15d1b5cf3b134bad0bc12278633977b7125d217418991aec);
    e := SqQ(2, e, 0x49ba86df70e15d1b5cf3b134bad0bc12278633977b7125d217418991aec, 0x2c8f135d64c2569f972425d75851ffe3729467ff89b237d4069d254d975);
    e := SqUpQ(2, e, 0x2c8f135d64c2569f972425d75851ffe3729467ff89b237d4069d254d975, 0x9c87c51cfdecb5acfe2e511aebcb423f48c9f58100e32c61c0119560ed0);
    e := SqUpQ(2, e, 0x1390f8a39fbd96b59fc5ca235d796847e9193eb0201c658c380232ac1da0, 0x60d8eee99e91b74bbbd05c63e746396011de7c3c929be6f4418d4bc98e7);
    e := SqUpQ(2, e, 0xc1b1ddd33d236e9777a0b8c7ce8c72c023bcf8792537cde8831a97931ce, 0x277fbce994f373c3c4a20fbe9b2a011aec4b2c63e8ace162af942b037a1);
  }

  lemma ChainQ_353_3()
    ensures Cong(Power(2, 0x1f208d7e03238088ea467d3b3c4399b), 0x14290a7bd85a501f238423cf38ec2059fd3b103ee6393d694a9cbd9b498a, Q)
  {
    hide Cong, Power;
    ChainQ_353_2();
    var e := 0x1f208d7e03238088ea467;
    e := SqUpQ(2, e, 0x4eff79d329e6e78789441f7d36540235d89658c7d159c2c55f285606f42, 0x47aa1f91919581155048341d3f75f315c1e942104ab4d69f2d59a78c5bf);
    e := SqUpQ(2, e, 0x8f543f23232b022aa090683a7eebe62b83d284209569ad3e5ab34f18b7e, 0x81ff336f7e53a1a5968521d863067bbe63835f5c570eb0deb48b59dad91);
    e := SqQ(2, e, 0x103fe66defca7434b2d0a43b0c60cf77cc706beb8ae1d61bd6916b3b5b22, 0x1380a3b89ccbbb56ab1f8a4c7d1022829a4eb863a3942bf56dd70a2965c);
    e := SqUpQ(2, e, 0x1380a3b89ccbbb56ab1f8a4c7d1022829a4eb863a3942bf56dd70a2965c, 0x8b9faeddbcad676af304bfc9b246f8e8159c70ac64e2229baeea5d956bc);
    e := SqQ(2, e, 0x1173f5dbb795aced5e6097f93648df1d02b38e158c9c445375dd4bb2ad78, 0x980d55eb745f31b7cb9fb9aec4e0872fe6d5c34e3b7bf406b951de6dea9);
    e := SqQ(2, e, 0x980d55eb745f31b7cb9fb9aec4e0872fe6d5c34e3b7bf406b951de6dea9, 0x787d5e918150e5478f55d729af52341fb90695892cc78b27cb1ab6a7f22);
    e := SqUpQ(2, e, 0x787d5e918150e5478f55d729af52341fb90695892cc78b27cb1ab6a7f22, 0x7ce94088e72395d8420dde266a07452b8c41e1ea2b8a06580932bcbd0ca);
    e := SqUpQ(2, e, 0xf9d28111ce472bb0841bbc4cd40e8a571883c3d457140cb01265797a194, 0x67ef020deead5b92b7c60135ab3d0110d69f4f4447a57b06257669e697b);
    e := SqUpQ(2, e, 0xcfde041bdd5ab7256f8c026b567a0221ad3e9e888f4af60c4aecd3cd2f6, 0x468577a3538a70786951b8091ea0e77cad75396cf8314a7dc2f45230d8d);
    e := SqQ(2, e, 0x8d0aef46a714e0f0d2a370123d41cef95aea72d9f06294fb85e8a461b1a, 0x19fcec03299b579cff1f8685379ca0a9dfd88927c100600d3a17cb23658);
    e := SqUpQ(2, e, 0x19fcec03299b579cff1f8685379ca0a9dfd88927c100600d3a17cb23658, 0xa05e0062335f49b142f1fe7ec3aeb750ed42b644f7cd8c2c9d74bbea7e3);
    e := SqUpQ(2, e, 0x140bc00c466be936285e3fcfd875d6ea1da856c89ef9b18593ae977d4fc6, 0xa1d472720ce1c75a5ea47e2153c052078bb892139a537f62616b19a8b13);
    e := SqQ(2, e, 0x143a8e4e419c38eb4bd48fc42a780a40f1771242734a6fec4c2d63351626, 0x8a52cd2c8a68d23c7fe8e0c58c874fe66ace1c706a7dc72fef3aceb5178);
    e := SqQ(2, e, 0x8a52cd2c8a68d23c7fe8e0c58c874fe66ace1c706a7dc72fef3aceb5178, 0x50e7e00c435dfac3764e5af7b5555c5d64f8f78e883471508ad6cae1a6);
    e := SqUpQ(2, e, 0x50e7e00c435dfac3764e5af7b5555c5d64f8f78e883471508ad6cae1a6, 0x71bebf8abb1474b9c21efdd9b759a6c0e45b82d2dfb71dfd1b1d6015df3);
    e := SqUpQ(2, e, 0xe37d7f157628e973843dfbb36eb34d81c8b705a5bf6e3bfa363ac02bbe6, 0x14c3b940187bc2540925019a51e72ed45aeefcfe5b5aa6dc72e4d6ce630);
    e := SqUpQ(2, e, 0x2987728030f784a8124a0334a3ce5da8b5ddf9fcb6b54db8e5c9ad9cc60, 0x56460194d623306c7f257fcd72d5e9e0a2f4f63cf5796e1918e5007f915);
    e := SqUpQ(2, e, 0xac8c0329ac4660d8fe4aff9ae5abd3c145e9ec79eaf2dc3231ca00ff22a, 0x783f96c09a0a2c84f3ac1fc45dbdff862fb2ffb1b9dab43d4ea58d4fe7c);
    e := SqQ(2, e, 0xf07f2d8134145909e7583f88bb7bff0c5f65ff6373b5687a9d4b1a9fcf8, 0x15604b31dcb368ac65fa2126f6e6e38c343b259e1098fee341b631f6550);
    e := SqQ(2, e, 0x15604b31dcb368ac65fa2126f6e6e38c343b259e1098fee341b631f6550, 0x52fb530268c5086f0fadb2330ed19a1319a9a4cf7f8cff3483f894db689);
    e := SqQ(2, e, 0x52fb530268c5086f0fadb2330ed19a1319a9a4cf7f8cff3483f894db689, 0x7ee8edb43ecdf735098493f01e853fcaa40db56e5a4b16051dc4f49c936);
    e := SqUpQ(2, e, 0x7ee8edb43ecdf735098493f01e853fcaa40db56e5a4b16051dc4f49c936, 0x5bbecf7d8ad82218da8176d20a6b1bcf642db62e851557863ccef79a4e2);
    e := SqQ(2, e, 0xb77d9efb15b04431b502eda414d6379ec85b6c5d0a2aaf0c799def349c4, 0x93ecd6d5bfa79ab09de1cddb569fde338f5a800a1ae00f278c9aea1149d);
    e := SqQ(2, e, 0x93ecd6d5bfa79ab09de1cddb569fde338f5a800a1ae00f278c9aea1149d, 0x523e4f37ca814cc0e60dd2a5845ab3105b08a832cac4e05f431dcb2e702);
    e := SqQ(2, e, 0x523e4f37ca814cc0e60dd2a5845ab3105b08a832cac4e05f431dcb2e702, 0x33934b66a5924bb4f1da01c0ca28b6fd23314edf08613b5af5f13a8bff2);
    e := SqQ(2, e, 0x33934b66a5924bb4f1da01c0ca28b6fd23314edf08613b5af5f13a8bff2, 0x6ca5e5f160af6b530eb2f420807721618788f9d34937866ce45aa619ee1);
    e := SqUpQ(2, e, 0x6ca5e5f160af6b530eb2f420807721618788f9d34937866ce45aa619ee1, 0x8408f973e5f7f548de722b0c317e034267fe5c91b2a711e74d2a450de6f);
    e := SqUpQ(2, e, 0x10811f2e7cbefea91bce4561862fc0684cffcb923654e23ce9a548a1bcde, 0x4ce9c89b33ac1b03d2cf7517a785aa6d4a34ea1d439e51c1cc5c3711d13);
    e := SqUpQ(2, e, 0x99d3913667583607a59eea2f4f0b54da9469d43a873ca38398b86e23a26, 0x7893897605baac8a3a95a2c57f17c32020c30dea318ed330f4aad286655);
    e := SqQ(2, e, 0xf12712ec0b755914752b458afe2f864041861bd4631da661e955a50ccaa, 0x80d1fee15253dcbae6bcd19150aeebce7fc5d873cac8ca6d715f227b8af);
    e := SqQ(2, e, 0x80d1fee15253dcbae6bcd19150aeebce7fc5d873cac8ca6d715f227b8af, 0x42f0777fea2ad75b74dac9490563c93ebd50eb766213a9a9df4d8da89a4);
    e := SqUpQ(2, e, 0x42f0777fea2ad75b74dac9490563c93ebd50eb766213a9a9df4d8da89a4, 0x6ebce2ee78df9d6e971d6ec5d77503346a2ebccdad8361b4ff1db957f7b);
    e := SqUpQ(2, e, 0xdd79c5dcf1bf3add2e3add8baeea0668d45d799b5b06c369fe3b72afef6, 0x982a11a61992ba96127ec329b1cfcbc749543fcb9d092b32c25b82ec176);
    e := SqQ(2, e, 0x13054234c3325752c24fd8653639f978e92a87f973a12566584b705d82ec, 0x56a734d930aa70accaa92da12dabead1627c134b6dc748c06bea82bd56e);
    e := SqQ(2, e, 0x56a734d930aa70accaa92da12dabead1627c134b6dc748c06bea82bd56e, 0x104f4ef25459b360fd556041ee4656685561e77086418281971ec8c444e);
    e := SqUpQ(2, e, 0x104f4ef25459b360fd556041ee4656685561e77086418281971ec8c444e, 0x90b7d21eb9991612a872732f1b18986965a8ca97c97e0e948e9717fc777);
    e := SqUpQ(2, e, 0x1216fa43d73322c2550e4e65e363130d2cb51952f92fc1d291d2e2ff8eee, 0xaf3d872316adb1881a236d28e97a9dbb50a6a4aa57d6503f16e7adced2);
    e := SqQ(2, e, 0x15e7b0e462d5b63103446da51d2f53b76a14d4954afaca07e2dcf5b9da4, 0x4f61fc9ad482008af402f6488a1c924b0d34c4f6fe3dc72ee27b741b06d);
    e := SqUpQ(2, e, 0x4f61fc9ad482008af402f6488a1c924b0d34c4f6fe3dc72ee27b741b06d, 0x64dbf21a0597b93742473a3b72a990227fdfb83eb250eff298bfe8ad922);
    e := SqUpQ(2, e, 0xc9b7e4340b2f726e848e7476e5532044ffbf707d64a1dfe5317fd15b244, 0xa14853dec2d280f91c211e79c76102cfe9d881f731c9eb4a54e5ecda4c5);
  }

  lemma ChainQ_353_4()
    ensures Cong(Power(2, 0x1f208d7e03238088ea467d3b3c4399bb42474cf22), 0xa5950508c7ee81cb6a956066931a7554d081c19b9c96c51d43fd1b76cb0, Q)
  {
    hide Cong, Power;
    ChainQ_353_3();
    var e := 0x1f208d7e03238088ea467d3b3c4399b;
    e := SqUpQ(2, e, 0x14290a7bd85a501f238423cf38ec2059fd3b103ee6393d694a9cbd9b498a, 0x96570e5bf685570029202dd7f8413b4966f283562067e9f805239377ffd);
    e := SqQ(2, e, 0x12cae1cb7ed0aae0052405baff0827692cde506ac40cfd3f00a4726efffa, 0x1a89d26886e87ec7a19e293ada6b4e8651b471db511a680cd844f978903);
    e := SqUpQ(2, e, 0x1a89d26886e87ec7a19e293ada6b4e8651b471db511a680cd844f978903, 0x20323185a9ee0c0ac0b44dde903b3ca101e8d2b1f04480a0929ed14f3ef);
    e := SqUpQ(2, e, 0x4064630b53dc181581689bbd2076794203d1a563e0890141253da29e7de, 0x83ea89fb7379092b453cc7c6475aabd1ca0d1579d33aaf0566d4e55cfba);
    e := SqQ(2, e, 0x107d513f6e6f212568a798f8c8eb557a3941a2af3a6755e0acda9cab9f74, 0x78f35e83bf6490caded9859f07433c90d62e16981610bc2a42eef475d79);
    e := SqUpQ(2, e, 0x78f35e83bf6490caded9859f07433c90d62e16981610bc2a42eef475d79, 0x58920f9c7edd5f35cde5863a473ac99531c8dcf8a2ffc2c3e586a1cdb73);
    e := SqQ(2, e, 0xb1241f38fdbabe6b9bcb0c748e75932a6391b9f145ff8587cb0d439b6e6, 0x93ea8bf7633e35fc47a4a510908e28cb47fe5b3dd1cde452bca2d0c240f);
    e := SqQ(2, e, 0x93ea8bf7633e35fc47a4a510908e28cb47fe5b3dd1cde452bca2d0c240f, 0x17394a6e27ac5580c52eebcd073932ad55395206e29697e4ded32414a4);
    e := SqQ(2, e, 0x17394a6e27ac5580c52eebcd073932ad55395206e29697e4ded32414a4, 0x6b8a7148ac7edacd246e114a6270858c64a99432a1fdfa8614367a26d33);
    e := SqQ(2, e, 0x6b8a7148ac7edacd246e114a6270858c64a99432a1fdfa8614367a26d33, 0x44bc8cf96e34a63daaa36df2d707c8009cf16a3c1d36bf1659fb332482);
    e := SqUpQ(2, e, 0x44bc8cf96e34a63daaa36df2d707c8009cf16a3c1d36bf1659fb332482, 0x7f85bbb2d42a4a192c337a4870e71107ee51abc745fb92f71e0d51b8283);
    e := SqQ(2, e, 0xff0b7765a85494325866f490e1ce220fdca3578e8bf725ee3c1aa370506, 0x225374cf83d50f16369d1ca190e8d1a766e2b1304e21e0217a534aa0c50);
    e := SqQ(2, e, 0x225374cf83d50f16369d1ca190e8d1a766e2b1304e21e0217a534aa0c50, 0x99d09a57d44c295d6f59d2f1167632bc797665a3bbec03ff2b814c8fe9c);
    e := SqUpQ(2, e, 0x99d09a57d44c295d6f59d2f1167632bc797665a3bbec03ff2b814c8fe9c, 0x7b5de5595eede312986081f2a304ea9fa793bcc728f1c44a643b837f562);
    e := SqQ(2, e, 0xf6bbcab2bddbc62530c103e54609d53f4f27798e51e38894c87706feac4, 0x4c9a890405a24631cc89c7f14ff760c896c9cda5302e3275cd86b9f15aa);
    e := SqQ(2, e, 0x4c9a890405a24631cc89c7f14ff760c896c9cda5302e3275cd86b9f15aa, 0x1ad9c88a2361f0270778ee0e151fc421b435c21787047fd40b4f452b15c);
    e := SqQ(2, e, 0x1ad9c88a2361f0270778ee0e151fc421b435c21787047fd40b4f452b15c, 0x3f4acf30b0fed1b14e7de2b8a8c7b2d98c3306c0d612d4b61cb107a6c67);
    e := SqUpQ(2, e, 0x3f4acf30b0fed1b14e7de2b8a8c7b2d98c3306c0d612d4b61cb107a6c67, 0x8a200de856df8d4ea2b869ad43e85338388583370483f1e28197d0a987a);
    e := SqUpQ(2, e, 0x114401bd0adbf1a9d4570d35a87d0a670710b066e0907e3c5032fa1530f4, 0x6396aba0d447ef7ff970081c6125bac2f8a4c29eeea03b6c56d07238b62);
    e := SqUpQ(2, e, 0xc72d5741a88fdefff2e01038c24b7585f149853ddd4076d8ada0e4716c4, 0x87fc9c2ba56f38ee9c5e07fca8542e833d6b861a2598851d5a5f96f4bda);
    e := SqQ(2, e, 0x10ff938574ade71dd38bc0ff950a85d067ad70c344b310a3ab4bf2de97b4, 0x621d8b9b87db46758ddb165edfeb70d7f8d3f020d2e62eaf3598b4bd029);
    e := SqUpQ(2, e, 0x621d8b9b87db46758ddb165edfeb70d7f8d3f020d2e62eaf3598b4bd029, 0x71bbffee166d1116784498f8ae61e2cb087fee05c75a02454010893cce);
    e := SqQ(2, e, 0xe377ffdc2cda222cf08931f15cc3c59610ffdc0b8eb4048a802112799c, 0x7848d610b3421a84b7cc69a588cd8da19555891cce5bdd9baef7c9d7361);
    e := SqQ(2, e, 0x7848d610b3421a84b7cc69a588cd8da19555891cce5bdd9baef7c9d7361, 0x4cf0a07634989aee459166f52a9eefd4b4c1a2df0f7d72e268762c807a7);
    e := SqUpQ(2, e, 0x4cf0a07634989aee459166f52a9eefd4b4c1a2df0f7d72e268762c807a7, 0x7764f93e3317184fbf1b45fcc9c0da68eebf7622b11ff5c51d34b912abe);
    e := SqUpQ(2, e, 0xeec9f27c662e309f7e368bf99381b4d1dd7eec45623feb8a3a69722557c, 0xa6c75a42a64dee7c342b98d489be80c4f15897c59b0028b8122515c44c8);
    e := SqQ(2, e, 0x14d8eb4854c9bdcf8685731a9137d0189e2b12f8b36005170244a2b88990, 0x75fd4d92ded7edb204da06ef6dc16e80c0f566bdb1a351d3415ce9e521d);
    e := SqQ(2, e, 0x75fd4d92ded7edb204da06ef6dc16e80c0f566bdb1a351d3415ce9e521d, 0x3fa3573b43ee7748d6c4c4c854e4dff8359890d474b2700800fb9654a31);
    e := SqUpQ(2, e, 0x3fa3573b43ee7748d6c4c4c854e4dff8359890d474b2700800fb9654a31, 0x484032b154d95c24d04e25c6f94cf446b1239f4493413d7eaf03649fb3c);
    e := SqUpQ(2, e, 0x90806562a9b2b849a09c4b8df299e88d62473e8926827afd5e06c93f678, 0xa447843b338fc0ec51034f2ded8f98c86ec1c45b6aaaf0c385687ba29ef);
    e := SqUpQ(2, e, 0x1488f0876671f81d8a2069e5bdb1f3190dd8388b6d555e1870ad0f7453de, 0x68992d3bf3acf9a8bcf33028cf1237ccd174f419b737f332f6f3412d4d1);
    e := SqUpQ(2, e, 0xd1325a77e759f35179e660519e246f99a2e9e8336e6fe665ede6825a9a2, 0x35d388164d3de3323719114d549993fd29908cca822c54b9b63e1ed6c5c);
    e := SqQ(2, e, 0x6ba7102c9a7bc6646e32229aa93327fa532119950458a9736c7c3dad8b8, 0xab24977aa8fc97b893edec64736b5df81c93df37dffb3720573564454f);
    e := SqQ(2, e, 0xab24977aa8fc97b893edec64736b5df81c93df37dffb3720573564454f, 0x53df710b0d17e74a40e01c5102ad2d8a7bca21e56b9a55921e30424b2c8);
    e := SqUpQ(2, e, 0x53df710b0d17e74a40e01c5102ad2d8a7bca21e56b9a55921e30424b2c8, 0x4d1f74261cebbbf8304ca64ef0ca256a5dd10abea6d4ed186cdd6cc4e54);
    e := SqQ(2, e, 0x9a3ee84c39d777f060994c9de1944ad4bba2157d4da9da30d9bad989ca8, 0x22ec2e20b248d57cf4ace4cb568202c88ba2273a31fb502b5bba95e714a);
    e := SqQ(2, e, 0x22ec2e20b248d57cf4ace4cb568202c88ba2273a31fb502b5bba95e714a, 0x896c91f6ae451bd0100635f70133c941709d50301853c593ae339568cce);
    e := SqQ(2, e, 0x896c91f6ae451bd0100635f70133c941709d50301853c593ae339568cce, 0x2f8a02727d5fb7ada992da4bcfba254a2a29e3032d7b8090658fe7c21af);
    e := SqUpQ(2, e, 0x2f8a02727d5fb7ada992da4bcfba254a2a29e3032d7b8090658fe7c21af, 0x972145a6d9d9eff67f79b579400247709f3568220ab781950a5f2d307e0);
    e := SqQ(2, e, 0x12e428b4db3b3dfecfef36af280048ee13e6ad044156f032a14be5a60fc0, 0xa5950508c7ee81cb6a956066931a7554d081c19b9c96c51d43fd1b76cb0);
  }

  lemma ChainQ_353_5()
    ensures Cong(Power(2, 0x1f208d7e03238088ea467d3b3c4399bb42474cf226748e0d1af), 0x3dbb25975e136fca119445d43da77baa709c09f2730268ae135bc138eac, Q)
  {
    hide Cong, Power;
    ChainQ_353_4();
    var e := 0x1f208d7e03238088ea467d3b3c4399bb42474cf22;
    e := SqQ(2, e, 0xa5950508c7ee81cb6a956066931a7554d081c19b9c96c51d43fd1b76cb0, 0x679c2d46f437a870fa202a0da1f059dce3f22c3b92b8d30f64eb49d8851);
    e := SqUpQ(2, e, 0x679c2d46f437a870fa202a0da1f059dce3f22c3b92b8d30f64eb49d8851, 0x67ed8750d9cb0e1104422b007cec746f3091854785f080f77347b396dc4);
    e := SqUpQ(2, e, 0xcfdb0ea1b3961c2208845600f9d8e8de61230a8f0be101eee68f672db88, 0xabfc1394297d6e74d62b75755fa40dcbfa4a44437a4501c230e26530dc);
    e := SqQ(2, e, 0x157f8272852fadce9ac56eaeabf481b97f4948886f48a038461c4ca61b8, 0xa273bf15ee21f9772211630b798399568110838f22df4a0a53f3e093b14);
    e := SqQ(2, e, 0xa273bf15ee21f9772211630b798399568110838f22df4a0a53f3e093b14, 0x21a3be7b4c3d234f0306d3acc17be84769f8edf65f9cc4faa5f0f6e1e6f);
    e := SqUpQ(2, e, 0x21a3be7b4c3d234f0306d3acc17be84769f8edf65f9cc4faa5f0f6e1e6f, 0x8f797bbef27c2a21c7ce7c3954e140e59b69d34aab7599f05ce738da46d);
    e := SqUpQ(2, e, 0x11ef2f77de4f854438f9cf872a9c281cb36d3a69556eb33e0b9ce71b48da, 0x1cb841371cffa8a9d5a7b0fd9e200c5f6338e3b1771f459d0d2382474ea);
    e := SqUpQ(2, e, 0x3970826e39ff5153ab4f61fb3c4018bec671c762ee3e8b3a1a47048e9d4, 0x213242fb13489d85d4249c78e829df0628c17b49a87bb2ade80da76ca13);
    e := SqQ(2, e, 0x426485f626913b0ba84938f1d053be0c5182f69350f7655bd01b4ed9426, 0x1f06a529e480f59ce824f53a8e6ff56f0bd946e194ebab2b186b3d69bb5);
    e := SqUpQ(2, e, 0x1f06a529e480f59ce824f53a8e6ff56f0bd946e194ebab2b186b3d69bb5, 0x8cb2b5def921fa73ad2a0426458e8d6c3377915dc3eb8c59a6749240de2);
    e := SqQ(2, e, 0x119656bbdf243f4e75a54084c8b1d1ad866ef22bb87d718b34ce92481bc4, 0x4c43ec3682abd4041ae0b27535ea9f83ec0f2897b19affa948f6c8e71a9);
    e := SqQ(2, e, 0x4c43ec3682abd4041ae0b27535ea9f83ec0f2897b19affa948f6c8e71a9, 0x6eff14bb607b86ced5f22ab0f48949036ca86919ed0cdf0c402f53a903e);
    e := SqUpQ(2, e, 0x6eff14bb607b86ced5f22ab0f48949036ca86919ed0cdf0c402f53a903e, 0x1d7358236763f32a55e774635430919a49af924c981bb8b0cb32e29d1c5);
    e := SqQ(2, e, 0x3ae6b046cec7e654abcee8c6a8612334935f2499303771619665c53a38a, 0x8617d14fdeee63614a942bf4f2379befacaf40c476cc8df950efd30378e);
    e := SqQ(2, e, 0x8617d14fdeee63614a942bf4f2379befacaf40c476cc8df950efd30378e, 0xa12201de24641f74161bfd0e93eb0e17f627a011cb935dc292ca69c5af6);
    e := SqQ(2, e, 0xa12201de24641f74161bfd0e93eb0e17f627a011cb935dc292ca69c5af6, 0x1d6669d2bd93329b946e993ae544bd21b3208be3e655cb9ffd848f10875);
    e := SqUpQ(2, e, 0x1d6669d2bd93329b946e993ae544bd21b3208be3e655cb9ffd848f10875, 0x67834f4ff5fdbad87a2335531698b22ae7b8349facb2e93acf1eba72dd5);
    e := SqUpQ(2, e, 0xcf069e9febfb75b0f4466aa62d316455cf70693f5965d2759e3d74e5baa, 0x5308d4b3ca0c0c50043b7bbf89a61f0e92eac61c166bc02cfe7bd7143b3);
    e := SqUpQ(2, e, 0xa611a967941818a00876f77f134c3e1d25d58c382cd78059fcf7ae28766, 0x3d682097f20a06a6a0efa6d8132828980140f37eba5b6e5236158dfe29a);
    e := SqQ(2, e, 0x7ad0412fe4140d4d41df4db0265051300281e6fd74b6dca46c2b1bfc534, 0x1471ede730306e49111f6b11c526bc90c36eec3497116a92deffe17bc29);
    e := SqQ(2, e, 0x1471ede730306e49111f6b11c526bc90c36eec3497116a92deffe17bc29, 0x91d961b79ce5d916c5fce3bd2125528b87f07ae5da8b0fd95a8dbe9bdf8);
    e := SqQ(2, e, 0x91d961b79ce5d916c5fce3bd2125528b87f07ae5da8b0fd95a8dbe9bdf8, 0x323d509847bcc27b5a8b1746171404dc1991de44bdb0907ef5e567b1a7e);
    e := SqQ(2, e, 0x323d509847bcc27b5a8b1746171404dc1991de44bdb0907ef5e567b1a7e, 0x6db0f5b6b23526c554904572f68c6f24b387ef9b7776f970c8ef01e8191);
    e := SqQ(2, e, 0x6db0f5b6b23526c554904572f68c6f24b387ef9b7776f970c8ef01e8191, 0x58a3319da67f350d03cada6b676197262ae82bbff8451109ea300d6421f);
    e := SqUpQ(2, e, 0x58a3319da67f350d03cada6b676197262ae82bbff8451109ea300d6421f, 0x1e88cb567b78a95d0d6b0f9d475d37b3eb2d90c12696e23b7a1680feabc);
    e := SqUpQ(2, e, 0x3d1196acf6f152ba1ad61f3a8eba6f67d65b21824d2dc476f42d01fd578, 0x17d5cddc89767995bb3afa9375a0fd4acae41ca5bd90a9b0e0585d6291e);
    e := SqQ(2, e, 0x2fab9bb912ecf32b7675f526eb41fa9595c8394b7b215361c0b0bac523c, 0xffc9fe0bd464068496447eb0126a0d2b30048092eb219c81c747e4ef84);
    e := SqUpQ(2, e, 0xffc9fe0bd464068496447eb0126a0d2b30048092eb219c81c747e4ef84, 0x4b329620c2bc1a42407aa31db9dfa6efd9c8c0618d0695941c03a635913);
    e := SqQ(2, e, 0x96652c418578348480f5463b73bf4ddfb39180c31a0d2b2838074c6b226, 0x8521322d82aea6bf1fe9a6b6910f9734f000495fe5ac0296bc5f66ae476);
    e := SqQ(2, e, 0x8521322d82aea6bf1fe9a6b6910f9734f000495fe5ac0296bc5f66ae476, 0xa56dcf38326abd39ca6ab5c2675186ea7bacf59bcfdf5f4a6ec4386ec8);
    e := SqQ(2, e, 0xa56dcf38326abd39ca6ab5c2675186ea7bacf59bcfdf5f4a6ec4386ec8, 0x6f03be2753f46b248170a65e81184eadeb12efe466f2a2d443b89f3bffb);
    e := SqUpQ(2, e, 0x6f03be2753f46b248170a65e81184eadeb12efe466f2a2d443b89f3bffb, 0x81603f3af891875c70f28ba998b0b6829e41ee484b447e5012729f5b90b);
    e := SqUpQ(2, e, 0x102c07e75f1230eb8e1e5175331616d053c83dc909688fca024e53eb7216, 0x64cb9c7d9e81a30f32caca012702f2e26b9d19e0e031a827929ca0b3713);
    e := SqQ(2, e, 0xc99738fb3d03461e659594024e05e5c4d73a33c1c063504f25394166e26, 0x5307a636a168268459a3059c46b41f49b26864d04ffb9a286cae9a4026b);
    e := SqUpQ(2, e, 0x5307a636a168268459a3059c46b41f49b26864d04ffb9a286cae9a4026b, 0x1a5359ae605f58fd98708849283a1e2e2b028db48ffb89f2f71ddcf120d);
    e := SqQ(2, e, 0x34a6b35cc0beb1fb30e1109250743c5c56051b691ff713e5ee3bb9e241a, 0x51953893f2c671017aa537cf957796a2b91812e3b37dbd5cb0db36ea0d3);
    e := SqUpQ(2, e, 0x51953893f2c671017aa537cf957796a2b91812e3b37dbd5cb0db36ea0d3, 0x607d83638b3c7f9f1cd36727ead0f2968eea36628fa61b624f5b8d0f15e);
    e := SqUpQ(2, e, 0xc0fb06c71678ff3e39a6ce4fd5a1e52d1dd46cc51f4c36c49eb71a1e2bc, 0x6eecc864a3e713d961fa5a7f23e5af6302932145534e50adbfb931d8a52);
    e := SqUpQ(2, e, 0xddd990c947ce27b2c3f4b4fe47cb5ec60526428aa69ca15b7f7263b14a4, 0x6790cf76d1f056961911c005ea9e24316c6cb6fdf883bc1f25f274af511);
    e := SqUpQ(2, e, 0xcf219eeda3e0ad2c3223800bd53c4862d8d96dfbf107783e4be4e95ea22, 0x1edd92cbaf09b7e508ca22ea1ed3bdd5384e04f93981345709ade09c756);
  }

  /** The witness of 353 for Q. */
  lemma ChainQ_353()
    ensures Cong(Power(2, 0x7c8235f80c8e0223a919f4ecf10e66ed091d33c899d238346bc3cb26a), 0x13d9dc1e5009af5c4c2541515b87c068b913c42d9a7644ce63ffe960964, Q)
  {
    hide Cong, Power;
    ChainQ_353_5();
    var e := 0x1f208d7e03238088ea467d3b3c4399bb42474cf226748e0d1af;
    e := SqQ(2, e, 0x3dbb25975e136fca119445d43da77baa709c09f2730268ae135bc138eac, 0x83ae753de5777532bfb198725abe6a297accdacdadf3f5b10a1b5c3403e);
    e := SqQ(2, e, 0x83ae753de5777532bfb198725abe6a297accdacdadf3f5b10a1b5c3403e, 0x780425ded4937ad88aa05fc1e93bf370e440049c4fbaad90821b3bd0d1f);
    e := SqQ(2, e, 0x780425ded4937ad88aa05fc1e93bf370e440049c4fbaad90821b3bd0d1f, 0x123023d86cef3c4f0b5a65e0e40c552e9f7a852251d8fa4f2c2428a5379);
    e := SqQ(2, e, 0x123023d86cef3c4f0b5a65e0e40c552e9f7a852251d8fa4f2c2428a5379, 0x525d7cd856505ccf3119e30630cb1bad8356684127ffe089b5790809a09);
    e := SqUpQ(2, e, 0x525d7cd856505ccf3119e30630cb1bad8356684127ffe089b5790809a09, 0x2f66aba19943881d11ed0c2b75cffb13e20e7efaecf54603d436a487bd1);
    e := SqUpQ(2, e, 0x5ecd57433287103a23da1856eb9ff627c41cfdf5d9ea8c07a86d490f7a2, 0x8be5fe8c8be5b5faf1f72eb81decd63cc1ed7912c8454889fd3867488ac);
    e := SqUpQ(2, e, 0x117cbfd1917cb6bf5e3ee5d703bd9ac7983daf225908a9113fa70ce91158, 0x6004bc5527118827ce50a128bb4369f8920c88739af260859e5876ec07c);
    e := SqUpQ(2, e, 0xc00978aa4e23104f9ca142517686d3f1241910e735e4c10b3cb0edd80f8, 0x3432309f7c9833d1ebc00524af685bc5e5cfa963faddcdeefaa203040d2);
    e := SqQ(2, e, 0x6864613ef93067a3d7800a495ed0b78bcb9f52c7f5bb9bddf54406081a4, 0x9a141d5850378c9a61702113bd47f0ed59d4c985b1b2f7fd15feb29d56e);
    e := SqQ(2, e, 0x9a141d5850378c9a61702113bd47f0ed59d4c985b1b2f7fd15feb29d56e, 0xc5c24779f9bb80525c5ba3dc7d6b363c1c84f5aa71753b5516a42170a2);
    e := SqUpQ(2, e, 0xc5c24779f9bb80525c5ba3dc7d6b363c1c84f5aa71753b5516a42170a2, 0x66295e67b2b9abe16cf2c77f9ae858aa49425e09662da8c32e2ce0aa658);
    e := SqQ(2, e, 0xcc52bccf657357c2d9e58eff35d0b1549284bc12cc5b51865c59c154cb0, 0x721a07170c62b5f77d22e079e46ae3be756078440fac66cf1d66d3d756c);
    e := SqUpQ(2, e, 0x721a07170c62b5f77d22e079e46ae3be756078440fac66cf1d66d3d756c, 0x9745bc3f832fb04fe1c1ca0c8d2dadb4517bcec7f62c4b7c283f6172b7);
    e := SqUpQ(2, e, 0x12e8b787f065f609fc38394191a5b5b68a2f79d8fec5896f8507ec2e56e, 0x71014d26ca7a96add910086eb4d80c23fc1bcba8bf5ffb752ae7b6ea7ff);
    e := SqQ(2, e, 0xe2029a4d94f52d5bb22010dd69b01847f83797517ebff6ea55cf6dd4ffe, 0x760397fb02f996826d7904eff88796b1d1659f40671f1fd1742fe64ec87);
    e := SqQ(2, e, 0x760397fb02f996826d7904eff88796b1d1659f40671f1fd1742fe64ec87, 0x3e15aaf2a4b7cf566983b94fe10aa8913b291159e339592abde48946e26);
    e := SqUpQ(2, e, 0x3e15aaf2a4b7cf566983b94fe10aa8913b291159e339592abde48946e26, 0x52e75e20ca8d75a3aa6de50de31c35a76d5780277c503ecc370d3775a1e);
    e := SqQ(2, e, 0xa5cebc41951aeb4754dbca1bc6386b4edaaf004ef8a07d986e1a6eeb43c, 0x19300c404413564b3729115b7cd324cfd21ff7b726f614fedbd51ce910b);
    e := SqQ(2, e, 0x19300c404413564b3729115b7cd324cfd21ff7b726f614fedbd51ce910b, 0x901864a7fd16650cefe35e4fd1936c9ff788aab2927e798d776e933abda);
    e := SqUpQ(2, e, 0x901864a7fd16650cefe35e4fd1936c9ff788aab2927e798d776e933abda, 0x145c1be5589bb782e3b4f9a33b8a7c980fa53f70fadfe9a42b68d380c77);
    e := SqUpQ(2, e, 0x28b837cab1376f05c769f3467714f9301f4a7ee1f5bfd34856d1a7018ee, 0x906805f805e49b67ac3175c8284dd84fd287a0a26d63db8ca4f4d7c36f2);
    e := SqQ(2, e, 0x120d00bf00bc936cf5862eb90509bb09fa50f4144dac7b71949e9af86de4, 0xab61650ca4f597d247e8a957b316c2d43a1133047af11020f5390c1fc0a);
    e := SqUpQ(2, e, 0xab61650ca4f597d247e8a957b316c2d43a1133047af11020f5390c1fc0a, 0x89f4fe013866560bd449e6e97135726b347c4e621a2c4ecf30c06dbdb65);
    e := SqQ(2, e, 0x113e9fc0270ccac17a893cdd2e26ae4d668f89cc434589d9e6180db7b6ca, 0x1825fd8640e8374d9988ac80f61cacd62f87f0094281105055ad756b80c);
    e := SqUpQ(2, e, 0x1825fd8640e8374d9988ac80f61cacd62f87f0094281105055ad756b80c, 0x9fcaca9106946923020fedefeb2ebbcf1e5d489d29576d0cec9c17cdc4f);
    e := SqQ(2, e, 0x13f9595220d28d246041fdbdfd65d779e3cba913a52aeda19d9382f9b89e, 0x13d9dc1e5009af5c4c2541515b87c068b913c42d9a7644ce63ffe960964);
  }

  /** It has order 353. */
  lemma OrderQ_353()
    ensures Cong(Power(0x13d9dc1e5009af5c4c2541515b87c068b913c42d9a7644ce63ffe960964, 353), 1, Q)
  {
    hide Cong, Power;
    Start(0x13d9dc1e5009af5c4c2541515b87c068b913c42d9a7644ce63ffe960964, Q);
    var e := 1;
    e := SqQ(0x13d9dc1e5009af5c4c2541515b87c068b913c42d9a7644ce63ffe960964, e, 0x13d9dc1e5009af5c4c2541515b87c068b913c42d9a7644ce63ffe960964, 0x2572760ca51df43d4d5bd713dc6b8e7a8b09f9681f21960a8072a319ebf);
    e := SqQ(0x13d9dc1e5009af5c4c2541515b87c068b913c42d9a7644ce63ffe960964, e, 0x2572760ca51df43d4d5bd713dc6b8e7a8b09f9681f21960a8072a319ebf, 0x8b39821533ccc483181e9eb78537165d9b43620a8d82185c3e9964412ca);
    e := UpQ(0x13d9dc1e5009af5c4c2541515b87c068b913c42d9a7644ce63ffe960964, e, 0x8b39821533ccc483181e9eb78537165d9b43620a8d82185c3e9964412ca, 0x3a5adc0270a1579c057b90d909d269d1f5e50e82e0d275380727441c789);
    e := SqQ(0x13d9dc1e5009af5c4c2541515b87c068b913c42d9a7644ce63ffe960964, e, 0x3a5adc0270a1579c057b90d909d269d1f5e50e82e0d275380727441c789, 0x9b6c7ea2f6dd0fc470a52109d6a365e8ec8a63e721dbdb6725e7d39d57e);
    e := UpQ(0x13d9dc1e5009af5c4c2541515b87c068b913c42d9a7644ce63ffe960964, e, 0x9b6c7ea2f6dd0fc470a52109d6a365e8ec8a63e721dbdb6725e7d39d57e, 0x7bc0149a9871936add4105d694a05e266b5f0c79634532d59f3ca5558a4);
    e := SqQ(0x13d9dc1e5009af5c4c2541515b87c068b913c42d9a7644ce63ffe960964, e, 0x7bc0149a9871936add4105d694a05e266b5f0c79634532d59f3ca5558a4, 0x67f02c1c6aaedf6f0ea9de00aaaa87af708006a0070524c58b9200d890c);
    e := SqQ(0x13d9dc1e5009af5c4c2541515b87c068b913c42d9a7644ce63ffe960964, e, 0x67f02c1c6aaedf6f0ea9de00aaaa87af708006a0070524c58b9200d890c, 0x9b9ff33ea51c066baa24ea219a3be258a3d64fcdfb6546f8e44f0a8da90);
    e := SqQ(0x13d9dc1e5009af5c4c2541515b87c068b913c42d9a7644ce63ffe960964, e, 0x9b9ff33ea51c066baa24ea219a3be258a3d64fcdfb6546f8e44f0a8da90, 0x59fd720abef5a6f7fbf35322cee3379c47e94e091aada181b69c8e92965);
    e := SqQ(0x13d9dc1e5009af5c4c2541515b87c068b913c42d9a7644ce63ffe960964, e, 0x59fd720abef5a6f7fbf35322cee3379c47e94e091aada181b69c8e92965, 0x2e58023576166b1c9e76f3c2cd084d6ae306d9bcb0f91aded38300392f);
    e := SqQ(0x13d9dc1e5009af5c4c2541515b87c068b913c42d9a7644ce63ffe960964, e, 0x2e58023576166b1c9e76f3c2cd084d6ae306d9bcb0f91aded38300392f, 0x50b1bfa79f3ce13971015fd61a7e73f2fd1fb115344678d78fdf7d13ac3);
    e := UpQ(0x13d9dc1e5009af5c4c2541515b87c068b913c42d9a7644ce63ffe960964, e, 0x50b1bfa79f3ce13971015fd61a7e73f2fd1fb115344678d78fdf7d13ac3, 1);
  }

  lemma ChainQ_R_1()
    ensures Cong(Power(2, 0x17a1a299ef1), 0x5b3dc2fe48132afebaa6033610a1a800fd38e1e0af27e937f3588174316, Q)
  {
    hide Cong, Power;
    Start(2, Q);
    var e := 1;
    e := SqQ(2, e, 2, 4);
    e := SqUpQ(2, e, 4, 0x10);
    e := SqUpQ(2, e, 0x20, 0x400);
    e := SqUpQ(2, e, 0x800, 0x400000);
    e := SqUpQ(2, e, 0x800000, 0x400000000000);
    e := SqQ(2, e, 0x800000000000, 0x400000000000000000000000);
    e := SqUpQ(2, e, 0x400000000000000000000000, 0x100000000000000000000000000000000000000000000000);
    e := SqQ(2, e, 0x200000000000000000000000000000000000000000000000, 0xa0000000000000000000000000000000);
    e := SqQ(2, e, 0xa0000000000000000000000000000000, 0x1575f18d6129fa1e65859957570c9b7d9b32288cf3835bf009131f64095);
    e := SqQ(2, e, 0x1575f18d6129fa1e65859957570c9b7d9b32288cf3835bf009131f64095, 0x63417d2de16224cc9589e533f29a4f24edc7fb8be63f893629f8712eb5d);
    e := SqQ(2, e, 0x63417d2de16224cc9589e533f29a4f24edc7fb8be63f893629f8712eb5d, 0x9c2295e31767e636259c7c1deed13941559c6c0579a73061da059fefd3f);
    e := SqUpQ(2, e, 0x9c2295e31767e636259c7c1deed13941559c6c0579a73061da059fefd3f, 0x7f1ee7f67986a99fbfbe5c423093d09bfd077c5ffddcc0706adf8db7b5d);
    e := SqUpQ(2, e, 0xfe3dcfecf30d533f7f7cb8846127a137fa0ef8bffbb980e0d5bf1b6f6ba, 0x6b313314b316cc4f1ee49c0bc8927130a99c65509e56cc67fd1fb10cfc6);
    e := SqQ(2, e, 0xd6626629662d989e3dc938179124e2615338caa13cad98cffa3f6219f8c, 0x73f48ef786a0c82a5410bcef192dd17d7b44506e30444a6ddbcce12d10f);
    e := SqUpQ(2, e, 0x73f48ef786a0c82a5410bcef192dd17d7b44506e30444a6ddbcce12d10f, 0x6262abd4aca359c95f8310e7797f8e7af339e5bf74e939f48f075ac852d);
    e := SqQ(2, e, 0xc4c557a95946b392bf0621cef2ff1cf5e673cb7ee9d273e91e0eb590a5a, 0x7ce9900030775e04fe6fc5e1a0b6f3ae9cdff71700b1f2c0fc96994c295);
    e := SqQ(2, e, 0x7ce9900030775e04fe6fc5e1a0b6f3ae9cdff71700b1f2c0fc96994c295, 0x47ed91f9e30696c95f893badb61bd79ac630564c46ebfac55ad80409024);
    e := SqQ(2, e, 0x47ed91f9e30696c95f893badb61bd79ac630564c46ebfac55ad80409024, 0x6d6910f52314c83c5d97d0ec8dba31017ab2fd248613c256aa925583ce9);
    e := SqUpQ(2, e, 0x6d6910f52314c83c5d97d0ec8dba31017ab2fd248613c256aa925583ce9, 0x2a11242ff8fa4a7cc6d674fd96ddbd9c4db6609aecd414b12b1c1cbea65);
    e := SqQ(2, e, 0x5422485ff1f494f98dace9fb2dbb7b389b6cc135d9a829625638397d4ca, 0x638b4d80ea1282170594444c4b6af20e30bf7b3a8df7c13642d404176fd);
    e := SqUpQ(2, e, 0x638b4d80ea1282170594444c4b6af20e30bf7b3a8df7c13642d404176fd, 0x34a7cef795c31de7f14f1f7f1d79d92d081fb3cd4ae740cfed148827042);
    e := SqQ(2, e, 0x694f9def2b863bcfe29e3efe3af3b25a103f679a95ce819fda29104e084, 0x18b0339408243fcef68a5da014a993a89e2ed2e21250e7ab76b7f98f2f9);
    e := SqQ(2, e, 0x18b0339408243fcef68a5da014a993a89e2ed2e21250e7ab76b7f98f2f9, 0x3d5c1fd1357668adbc8cd1a8afdacb0f87fa1ee62680b76b3d822405076);
    e := SqUpQ(2, e, 0x3d5c1fd1357668adbc8cd1a8afdacb0f87fa1ee62680b76b3d822405076, 0x4d6c44a4a9a40dd89f5f06fdeba31f91b99055dda805e9aec8a098fdb9b);
    e := SqUpQ(2, e, 0x9ad8894953481bb13ebe0dfbd7463f237320abbb500bd35d914131fb736, 0xab4c3e5f5bbf5539a1b054b61c923f7a0b3468a162dff43da8948e42728);
    e := SqQ(2, e, 0x156987cbeb77eaa734360a96c39247ef41668d142c5bfe87b51291c84e50, 0x6d8f8fb5ce21b8c0c7b3a311406adb88cc8672e9fe2eed169f1b4b55a2c);
    e := SqQ(2, e, 0x6d8f8fb5ce21b8c0c7b3a311406adb88cc8672e9fe2eed169f1b4b55a2c, 0x44fcdedf04753ed8c8ee915986db0b0a72ae2d45022447a3a9dc506e3ef);
    e := SqUpQ(2, e, 0x44fcdedf04753ed8c8ee915986db0b0a72ae2d45022447a3a9dc506e3ef, 0x67d901a45d2e3fdf1200584d1e5a6beb60d1167835301623d68259ce56f);
    e := SqUpQ(2, e, 0xcfb20348ba5c7fbe2400b09a3cb4d7d6c1a22cf06a602c47ad04b39cade, 0x2649dfe0bf2f76808ac8eb924b960ad6a7863edb518e0ceaa1ff627b19c);
    e := SqUpQ(2, e, 0x4c93bfc17e5eed011591d724972c15ad4f0c7db6a31c19d543fec4f6338, 0x7994e3a10b4f2fc8b2ce0dce28bd317924dac771f5cbe70a2ba0752e21);
    e := SqUpQ(2, e, 0xf329c742169e5f91659c1b9c517a62f249b58ee3eb97ce145740ea5c42, 0x1ac865f96430a1aa0c70f5dfee4a5513a9fe1ee6cb597414a8023028272);
    e := SqQ(2, e, 0x3590cbf2c861435418e1ebbfdc94aa2753fc3dcd96b2e829500460504e4, 0x16e3f379ad5b751a496ff90b3142c1fe077abff8bac422ba9f1603668b0);
    e := SqUpQ(2, e, 0x16e3f379ad5b751a496ff90b3142c1fe077abff8bac422ba9f1603668b0, 0x96bae247532c1716fe58a5ae65cac15a86e22f65f6aefcc838b625a81a8);
    e := SqUpQ(2, e, 0x12d75c48ea6582e2dfcb14b5ccb9582b50dc45ecbed5df990716c4b50350, 0x49abc80650a8add081add5c490805ccc46ed3a4a69a93a0f14a243725b);
    e := SqUpQ(2, e, 0x9357900ca1515ba1035bab892100b9988dda7494d352741e294486e4b6, 0x7605a111e9a8f3e69c4e28d3e5cc4255287898b4db408e6739e78f3bae3);
    e := SqUpQ(2, e, 0xec0b4223d351e7cd389c51a7cb9884aa50f13169b6811cce73cf1e775c6, 0x3eb17e7bafc0908866da3963ffc42521ea406f19fc300cbfc7b7f6a805b);
    e := SqQ(2, e, 0x7d62fcf75f812110cdb472c7ff884a43d480de33f860197f8f6fed500b6, 0x904ba4c874b1f0f05b0450a279336362c7e1488ac92ee8f5da6f563364a);
    e := SqQ(2, e, 0x904ba4c874b1f0f05b0450a279336362c7e1488ac92ee8f5da6f563364a, 0x76494f0a3a3c97814203225ec564b209a6f5546814a0c75daf65d46ffb0);
    e := SqQ(2, e, 0x76494f0a3a3c97814203225ec564b209a6f5546814a0c75daf65d46ffb0, 0xa5f7104ec5019bccb3280196d860001a7443841d5ec0ed143bc88362c22);
    e := SqUpQ(2, e, 0xa5f7104ec5019bccb3280196d860001a7443841d5ec0ed143bc88362c22, 0x2d9ee17f2409957f5d53019b0850d4007e9c70f05793f49bf9ac40ba18b);
  }

  lemma ChainQ_R_2()
    ensures Cong(Power(2, 0x17a1a299ef1cea4346523), 0x11dba6374420ce84e800f39b838c84a82a8c58840419e42b968d5d3cdcac, Q)
  {
    hide Cong, Power;
    ChainQ_R_1();
    var e := 0x17a1a299ef1;
    e := SqUpQ(2, e, 0x5b3dc2fe48132afebaa6033610a1a800fd38e1e0af27e937f3588174316, 0xab9c953e27badfdea8502f6989f7f66cef2f46526a69f38b767ba403649);
    e := SqUpQ(2, e, 0x157392a7c4f75bfbd50a05ed313efecd9de5e8ca4d4d3e716ecf74806c92, 0x3835f6f9b0039d2905bd972d126accbf3c327e35ee5513d4b6a8b5baf5);
    e := SqQ(2, e, 0x706bedf360073a520b7b2e5a24d5997e7864fc6bdcaa27a96d516b75ea, 0x2ecbe1d5d2a4e8bd96f9b7b79219fb1f19e861a83c56e62b50f54f2cb10);
    e := SqQ(2, e, 0x2ecbe1d5d2a4e8bd96f9b7b79219fb1f19e861a83c56e62b50f54f2cb10, 0x480d7ea8eadcb7e4ebb35b1a0cdcd043f5e4cd4d2058172d0c27567b647);
    e := SqUpQ(2, e, 0x480d7ea8eadcb7e4ebb35b1a0cdcd043f5e4cd4d2058172d0c27567b647, 0x43bd6fd37c31c040e635ce4ae52e77a1b00a6546796ae99b96a1efdac94);
    e := SqUpQ(2, e, 0x877adfa6f8638081cc6b9c95ca5cef436014ca8cf2d5d3372d43dfb5928, 0x301f532453b1a285a4f961432ddecea4aca611e4f2ffc5729c82df47d6f);
    e := SqUpQ(2, e, 0x603ea648a763450b49f2c2865bbd9d49594c23c9e5ff8ae53905be8fade, 0x41e599b13fd7e52427752af9f69f29e6b8ab493993b5f2139f4ba2741f0);
    e := SqQ(2, e, 0x83cb33627fafca484eea55f3ed3e53cd71569273276be4273e9744e83e0, 0x8ae0254f62995e149367320aa32b3275044ac79839f4008b2ebc57c4e36);
    e := SqUpQ(2, e, 0x8ae0254f62995e149367320aa32b3275044ac79839f4008b2ebc57c4e36, 0x3bd2a2d7733bc59aa05c6827b44e8f2c06a6b04b38def27dcb6b70e1212);
    e := SqQ(2, e, 0x77a545aee6778b3540b8d04f689d1e580d4d609671bde4fb96d6e1c2424, 0x1d3a2bd56156546153f495e59c8eedae00984d23441bd58c80d887f0cfe);
    e := SqUpQ(2, e, 0x1d3a2bd56156546153f495e59c8eedae00984d23441bd58c80d887f0cfe, 0x5eb416debdd7e31e54e8a177e1833b9e18c448cdefc07e9ab85915afb49);
    e := SqQ(2, e, 0xbd682dbd7bafc63ca9d142efc306773c3188919bdf80fd3570b22b5f692, 0x87a1a708af6f6db13628dbb2cfb9a13f87ce11c0d7efdf799cc6d9d2d9);
    e := SqQ(2, e, 0x87a1a708af6f6db13628dbb2cfb9a13f87ce11c0d7efdf799cc6d9d2d9, 0x681cea30777f864767ca5c72c2e0c9366d4bea0ed36db67f72e1b824700);
    e := SqUpQ(2, e, 0x681cea30777f864767ca5c72c2e0c9366d4bea0ed36db67f72e1b824700, 0x877b237d5de8406e590a209c089bc763369d12b683b6adbb64425e5d7d4);
    e := SqQ(2, e, 0x10ef646fabbd080dcb214413811378ec66d3a256d076d5b76c884bcbafa8, 0x66890395acbd229953540895de9c35dfd3b00c3391b3fbbeda237c04bba);
    e := SqQ(2, e, 0x66890395acbd229953540895de9c35dfd3b00c3391b3fbbeda237c04bba, 0x246b0d995d0c971914cfb6d54b8f246af282bafd4da86c98e6560668218);
    e := SqQ(2, e, 0x246b0d995d0c971914cfb6d54b8f246af282bafd4da86c98e6560668218, 0x96131899c63d71007c8e92a4eff37266d2ee68854c1e56c38cb6cadc056);
    e := SqQ(2, e, 0x96131899c63d71007c8e92a4eff37266d2ee68854c1e56c38cb6cadc056, 0x1063eb9f7e399a72c51a14c8774493cfd6b71251d4d13448d8ad87df513);
    e := SqUpQ(2, e, 0x1063eb9f7e399a72c51a14c8774493cfd6b71251d4d13448d8ad87df513, 0xaa77591358eac50c27ab3df94a768c710d1188dd8e052cad587178f9c43);
    e := SqUpQ(2, e, 0x154eeb226b1d58a184f567bf294ed18e21a2311bb1c0a595ab0e2f1f3886, 0x1e709b07ea37e25445321cdf536f2e6cad315f7b2a47813c3c1caad143b);
    e := SqQ(2, e, 0x3ce1360fd46fc4a88a6439bea6de5cd95a62bef6548f0278783955a2876, 0x89283d0d222956de5001ac765776b44cad63015b2232b0bda5fcd71230f);
    e := SqUpQ(2, e, 0x89283d0d222956de5001ac765776b44cad63015b2232b0bda5fcd71230f, 0x5e1e1f6caa0b4a02acc62e85474ecb546d6edde631bb5f5d65b4723890);
    e := SqQ(2, e, 0xbc3c3ed954169405598c5d0a8e9d96a8daddbbcc6376bebacb68e47120, 0xa35d8d8f64b75f6c4a1be3f7bfeb14dec55fd2156f8b898db65dac5c275);
    e := SqQ(2, e, 0xa35d8d8f64b75f6c4a1be3f7bfeb14dec55fd2156f8b898db65dac5c275, 0x80067ce1dc095d93cc102cf2a38d4e1a11b4217630d63182d30ef54641d);
    e := SqQ(2, e, 0x80067ce1dc095d93cc102cf2a38d4e1a11b4217630d63182d30ef54641d, 0x1c53d340376af8cfca4f67d25d18d47b236324e1a764da948477e92628b);
    e := SqUpQ(2, e, 0x1c53d340376af8cfca4f67d25d18d47b236324e1a764da948477e92628b, 0x8824bbe3c339a3b50f5fbc0e6a7e6cbf600449f358131fe2509360f07a4);
    e := SqUpQ(2, e, 0x1104977c78673476a1ebf781cd4fcd97ec00893e6b0263fc4a126c1e0f48, 0x4010434d85489fc9d763bac1341393fe9cc0136ac166daa7347d467e1c6);
    e := SqQ(2, e, 0x8020869b0a913f93aec77582682727fd398026d582cdb54e68fa8cfc38c, 0x48e88c4980b9201f5cfbef781abf1d4f828e86fb9659adff4b1310b0a79);
    e := SqQ(2, e, 0x48e88c4980b9201f5cfbef781abf1d4f828e86fb9659adff4b1310b0a79, 0x9e649a67a4dc4fcc3907d0adafafe3aed2883cebd206262a3f7c68f33d);
    e := SqUpQ(2, e, 0x9e649a67a4dc4fcc3907d0adafafe3aed2883cebd206262a3f7c68f33d, 0x7b74434c6235a727916e9d87a72ea84589ecf8100ce3717209c8082fb40);
    e := SqQ(2, e, 0xf6e88698c46b4e4f22dd3b0f4e5d508b13d9f02019c6e2e41390105f680, 0x7f7597cdd3c877340a980a10f28f7bd44170bf96fb6e9d8a7500735f18b);
    e := SqUpQ(2, e, 0x7f7597cdd3c877340a980a10f28f7bd44170bf96fb6e9d8a7500735f18b, 0xa49d052a5f38f44ed21e1b0ede6c3fa26a9cf1803c79b8fc7f1cd61454f);
    e := SqQ(2, e, 0x1493a0a54be71e89da43c361dbcd87f44d539e30078f371f8fe39ac28a9e, 0x96d2c969627da713cad78c935f91c840b1e6a93152df5ef406bf417b7c4);
    e := SqQ(2, e, 0x96d2c969627da713cad78c935f91c840b1e6a93152df5ef406bf417b7c4, 0x3854f63724c53aa594b9c9922f46592727c1bd3b106b9e50dd7e3a28215);
    e := SqUpQ(2, e, 0x3854f63724c53aa594b9c9922f46592727c1bd3b106b9e50dd7e3a28215, 0x498c7714474bab77fb7338587665067a8837d3e0035f7d7ca4021a167bf);
    e := SqQ(2, e, 0x9318ee288e9756eff6e670b0ecca0cf5106fa7c006befaf94804342cf7e, 0x3463313141c76af212b3b22f8b613e2e28a9711187f217be91e300c269d);
    e := SqQ(2, e, 0x3463313141c76af212b3b22f8b613e2e28a9711187f217be91e300c269d, 0x5f232d211cad15e53e3a956ec029ae0c7d4a363f98c30c4217155b03e32);
    e := SqQ(2, e, 0x5f232d211cad15e53e3a956ec029ae0c7d4a363f98c30c4217155b03e32, 0xfe964007ae604fff314f7b793d2966f50b5bc5568982c129202f37990a);
    e := SqUpQ(2, e, 0xfe964007ae604fff314f7b793d2966f50b5bc5568982c129202f37990a, 0x6a458510cab1a9ef7b65312a2c16fd8dac2a1ca13ee7f504aad2c9f77b3);
    e := SqUpQ(2, e, 0xd48b0a21956353def6ca6254582dfb1b585439427dcfea0955a593eef66, 0x8edd31ba2106742740079cdc1c6425415462c42020cf215cb46ae9e6e56);
  }

  /** The witness of R for Q. */
  lemma ChainQ_R()
    ensures Cong(Power(2, 0xbd0d14cf78e7521a329188e9fa496a), 0xa118eb0f9d8184bab59e8e45df736d65fba3c64f4aa855bc8921ac18308, Q)
  {
    hide Cong, Power;
    ChainQ_R_2();
    var e := 0x17a1a299ef1cea4346523;
    e := SqQ(2, e, 0x11dba6374420ce84e800f39b838c84a82a8c58840419e42b968d5d3cdcac, 0x8ec0ece8d1c70fa46ce9a84130fc7862194ca52ee39dbc9bccd849f1134);
    e := SqQ(2, e, 0x8ec0ece8d1c70fa46ce9a84130fc7862194ca52ee39dbc9bccd849f1134, 0x984b9e157c3a6b1f500e1f6db2ff31a9fc102ddea06b1460a7c4c162fc);
    e := SqQ(2, e, 0x984b9e157c3a6b1f500e1f6db2ff31a9fc102ddea06b1460a7c4c162fc, 0x191ab7bc343c628269193e1f3b3661f2fc43d86e3a3945eaa4ce0581c49);
    e := SqUpQ(2, e, 0x191ab7bc343c628269193e1f3b3661f2fc43d86e3a3945eaa4ce0581c49, 0x380a464647d592e44941d7ccf16a15daeacc5159daa2e0bb3aa2669ccd5);
    e := SqQ(2, e, 0x70148c8c8fab25c89283af99e2d42bb5d598a2b3b545c1767544cd399aa, 0x6d18b4092d072cfb745aa6e3b53fcd7b510266a4fd1b331deac0331d450);
    e := SqQ(2, e, 0x6d18b4092d072cfb745aa6e3b53fcd7b510266a4fd1b331deac0331d450, 0x5e53a20049dc2fd1357d92bfa28d053694fa00741bc1e52de5063d93581);
    e := SqQ(2, e, 0x5e53a20049dc2fd1357d92bfa28d053694fa00741bc1e52de5063d93581, 0x9f254955df08c93c067baa8495de768e15726947b90bdcd4eacc89b7546);
    e := SqUpQ(2, e, 0x9f254955df08c93c067baa8495de768e15726947b90bdcd4eacc89b7546, 0x14a74c7833f93ef92e47c9071062752f5efdaa8b5fc73bae27019f8281f);
    e := SqUpQ(2, e, 0x294e98f067f27df25c8f920e20c4ea5ebdfb5516bf8e775c4e033f0503e, 0x33e70e8e407f1bbc07e8c323cecfde4b6207532f47d3e5b868de37597d4);
    e := SqUpQ(2, e, 0x67ce1d1c80fe37780fd186479d9fbc96c40ea65e8fa7cb70d1bc6eb2fa8, 0x83e530ae9013cc0b4114f96adf0e5286e90ed783ec6989eb097ae6fa47d);
    e := SqQ(2, e, 0x107ca615d202798168229f2d5be1ca50dd21daf07d8d313d612f5cdf48fa, 0xa1ac6b40e5cae5858f15b1990489ac87ae8963971fa5721264f97f12c02);
    e := SqUpQ(2, e, 0xa1ac6b40e5cae5858f15b1990489ac87ae8963971fa5721264f97f12c02, 0x5c77661c061b1ef0e0423e533b33084c689602eeb61e0c6463d3af17726);
    e := SqQ(2, e, 0xb8eecc380c363de1c0847ca676661098d12c05dd6c3c18c8c7a75e2ee4c, 0x14c97ecab69056698bf65a377fb2393a67dd9816da34dbe0179dcefa47b);
    e := SqQ(2, e, 0x14c97ecab69056698bf65a377fb2393a67dd9816da34dbe0179dcefa47b, 0x58495c6cbe1f4542979c800a596b7e3cad9056e18cefdd81b7269f013be);
    e := SqUpQ(2, e, 0x58495c6cbe1f4542979c800a596b7e3cad9056e18cefdd81b7269f013be, 0x733f5680e54ef6397b475f54cf6b5797750c957c9c0b11947a82ce540b6);
    e := SqUpQ(2, e, 0xe67ead01ca9dec72f68ebea99ed6af2eea192af938162328f5059ca816c, 0x6291f5b13b57f8425d210c520f74009488bf62b1c61cebcb46b4ffc1801);
    e := SqUpQ(2, e, 0xc523eb6276aff084ba4218a41ee80129117ec5638c39d7968d69ff83002, 0x6227df90f2967076be927e6ac756dbc21e85cfd51740ee0708e599b8e77);
    e := SqUpQ(2, e, 0xc44fbf21e52ce0ed7d24fcd58eadb7843d0b9faa2e81dc0e11cb3371cee, 0x81e30b83e8b032fd61132eaa042ee45dc26a7f0b1c3e267f1e39ae3f8f8);
    e := SqUpQ(2, e, 0x103c61707d16065fac2265d54085dc8bb84d4fe16387c4cfe3c735c7f1f0, 0x19559439c8c53d765fdb6b57946101e40ce06000ba9cc085112e0f5e049);
    e := SqUpQ(2, e, 0x32ab2873918a7aecbfb6d6af28c203c819c0c0017539810a225c1ebc092, 0x6f154d33bb84dbcc4743abd9ff2840d9201c036787bab3f0cdb098616f7);
    e := SqQ(2, e, 0xde2a9a677709b7988e8757b3fe5081b2403806cf0f7567e19b6130c2dee, 0x5641d4e5de2cc434d8ff2a159299498cca60897ed388a0aef15ff0da0ce);
    e := SqUpQ(2, e, 0x5641d4e5de2cc434d8ff2a159299498cca60897ed388a0aef15ff0da0ce, 0x80ced64c1a2a9715702d0648ea54fe3a377fc7aa638ecd7a00368027ccd);
    e := SqQ(2, e, 0x1019dac9834552e2ae05a0c91d4a9fc746eff8f54c71d9af4006d004f99a, 0x9823bc824ddf4238bf45872426c1302f752184c5056f87a8f42c1600555);
    e := SqQ(2, e, 0x9823bc824ddf4238bf45872426c1302f752184c5056f87a8f42c1600555, 0x3b697d501b0714f8d317f10949e2b67188f4cafb4cccc75d9b98460108f);
    e := SqUpQ(2, e, 0x3b697d501b0714f8d317f10949e2b67188f4cafb4cccc75d9b98460108f, 0x6f98126362449accfc4e453ffe59cf74152979da3ac10e94b7c379ac09c);
    e := SqQ(2, e, 0xdf3024c6c4893599f89c8a7ffcb39ee82a52f3b475821d296f86f358138, 0x52b2f1167be7a4b9fc1a2da3db30dd39977591d38cde11632591e04a443);
    e := SqQ(2, e, 0x52b2f1167be7a4b9fc1a2da3db30dd39977591d38cde11632591e04a443, 0x15ffe601f5b00c84e6b79ed19993fac9d4e536125b1eb5a8d2a9339d2b);
    e := SqUpQ(2, e, 0x15ffe601f5b00c84e6b79ed19993fac9d4e536125b1eb5a8d2a9339d2b, 0x4c80b5736bd3fcad0f161640aa0ba5dcbf2b077ef1490da58c3d9d14bb7);
    e := SqQ(2, e, 0x99016ae6d7a7f95a1e2c2c8154174bb97e560efde2921b4b187b3a2976e, 0x3a40cd496b38c85262acc65b5751cf807ec56bf6ee4146d56ab4a25e977);
    e := SqQ(2, e, 0x3a40cd496b38c85262acc65b5751cf807ec56bf6ee4146d56ab4a25e977, 0x650348bc16e94643c3355253b78e6752af906a3eb5bc54cf2993163f998);
    e := SqUpQ(2, e, 0x650348bc16e94643c3355253b78e6752af906a3eb5bc54cf2993163f998, 0xa086bda5caf3be771891ec1abcead818e88bdca395b710f278743af37f8);
    e := SqQ(2, e, 0x1410d7b4b95e77cee3123d83579d5b031d117b9472b6e21e4f0e875e6ff0, 0x377735aedb37e55d19ff1c50169c5922f560053366812d8f0df5f653597);
    e := SqUpQ(2, e, 0x377735aedb37e55d19ff1c50169c5922f560053366812d8f0df5f653597, 0x9b3deb791ecf8ac5c3e3c00a264b414facd10bc8a3c3114e86188ee12f0);
    e := SqUpQ(2, e, 0x1367bd6f23d9f158b87c780144c96829f59a217914786229d0c311dc25e0, 0x83e9a9d49ec939fb60a7ebcd6f924606f6dbbf4340a9f0e62a28f3d3dfd);
    e := SqQ(2, e, 0x107d353a93d9273f6c14fd79adf248c0dedb77e868153e1cc5451e7a7bfa, 0x497b1976e2c5196437c64570ab1267dc3ee2476cb1f39398a436a2a1147);
    e := SqUpQ(2, e, 0x497b1976e2c5196437c64570ab1267dc3ee2476cb1f39398a436a2a1147, 0x33e1b2ae1ea601d4f1ce56c6cf37e3e81ef561c189c688c5492e7e640d0);
    e := SqQ(2, e, 0x67c3655c3d4c03a9e39cad8d9e6fc7d03deac383138d118a925cfcc81a0, 0x645b08dfbcd1d8f70ba37aa8fe62a64990262ab94952a38617885b46dc7);
    e := SqUpQ(2, e, 0x645b08dfbcd1d8f70ba37aa8fe62a64990262ab94952a38617885b46dc7, 0x737eb8ea263f89bebcdff64da88a12406c0f1b444c6f1d355115722ff78);
    e := SqQ(2, e, 0xe6fd71d44c7f137d79bfec9b51142480d81e368898de3a6aa22ae45fef0, 0xa118eb0f9d8184bab59e8e45df736d65fba3c64f4aa855bc8921ac18308);
  }

  lemma PrimeQ()
    ensures Prime(Q)
  {
    hide Cong, Power, Prime, Witness;
    PrimeR(); Prime353();
    ChainQ_353(); OrderQ_353(); ChainQ_R();
    WholePower(Q, 353, 2, 0x7c8235f80c8e0223a919f4ecf10e66ed091d33c899d238346bc3cb26a, 0x13d9dc1e5009af5c4c2541515b87c068b913c42d9a7644ce63ffe960964);
    MakeWitness(Q, 353, 2, 0x7c8235f80c8e0223a919f4ecf10e66ed091d33c899d238346bc3cb26a, 0x13d9dc1e5009af5c4c2541515b87c068b913c42d9a7644ce63ffe960964, 0x57f4888591087bd9c3eb0c0f278ba4fddc26c6cce3b2e8944893fcd09ab);
    MakeWitness(Q, R, 2, 0xbd0d14cf78e7521a329188e9fa496a, 0xa118eb0f9d8184bab59e8e45df736d65fba3c64f4aa855bc8921ac18308, 0xa35a14fb1452ddd0fca6eef50ac9bd9a369cab894104fc366d4fa595e38);
    Pocklington2(Q, R, 0xa118eb0f9d8184bab59e8e45df736d65fba3c64f4aa855bc8921ac18308, 353, 0x13d9dc1e5009af5c4c2541515b87c068b913c42d9a7644ce63ffe960964);
  }

  // ---------------------------------------------------------------- P

  lemma ChainP_1()
    ensures Cong(Power(2, 0x1ffffffffff), 0x9c2261269bde5d8a23e88bdcfa0efa5f91c60951386a6441dfa38e5f6c500bb0, P)
  {
    hide Cong, Power;
    Start(2, P);
    var e := 1;
    e := SqUpBy(P, 2, e, 2, 4, 0x0);
    e := SqUpBy(P, 2, e, 8, 0x40, 0x0);
    e := SqUpBy(P, 2, e, 0x80, 0x4000, 0x0);
    e := SqUpBy(P, 2, e, 0x8000, 0x40000000, 0x0);
    e := SqUpBy(P, 2, e, 0x80000000, 0x4000000000000000, 0x0);
    e := SqUpBy(P, 2, e, 0x8000000000000000, 0x40000000000000000000000000000000, 0x0);
    e := SqUpBy(P, 2, e, 0x80000000000000000000000000000000, 0x4000000000000000000000000000000000000000000000000000000000000000, 0x0);
    e := SqUpBy(P, 2, e, 0x8000000000000000000000000000000000000000000000000000000000000000, 0x169, 0x8000000000000000000000000000000000000000000000000000000000000013);
    e := SqUpBy(P, 2, e, 0x2d2, 0x7f444, 0x0);
    e := SqUpBy(P, 2, e, 0xfe888, 0xfd1326c840, 0x0);
    e := SqUpBy(P, 2, e, 0x1fa264d9080, 0x3e8bb705a58663e904000, 0x0);
    e := SqUpBy(P, 2, e, 0x7d176e0b4b0cc7d208000, 0x3d1fe39bfc9fac6d885f98a51858f4c12040000000, 0x0);
    e := SqUpBy(P, 2, e, 0x7a3fc737f93f58db10bf314a30b1e9824080000000, 0x5c66af392ac4868706c83cc33015eee4e33dd4b8cb73ca0933e5182b12a5919, 0x74c1b38a044a3f381fa3);
    e := SqUpBy(P, 2, e, 0xb8cd5e7255890d0e0d907986602bddc9c67ba97196e7941267ca3056254b232, 0xf86ff2c866cec2de2a7b6fcb5340e17ae83e4a63da53bee2a53914e0b91899d, 0x10acfb90981d4544818774d30902dc5b92df0b3565e46544ed61aadceab5de3);
    e := SqUpBy(P, 2, e, 0x1f0dfe590cd9d85bc54f6df96a681c2f5d07c94c7b4a77dc54a7229c1723133a, 0x7fbf4be68bc77b6029ea1f7200be0ec96ee0d70c1a87fccd582eace947a48aa1, 0x788c8bac5b9ca00d91def6afefcb9994932fa032c11e4cfb83d803566556a2f);
    e := SqUpBy(P, 2, e, 0xff7e97cd178ef6c053d43ee4017c1d92ddc1ae18350ff99ab05d59d28f491542, 0x46f1e876315b96a5759b65f990c4a939e17c224684505a4b884e097a44d960f1, 0x1fdfae208b9ab2ccee118daa0038f80bdfbd51dd689e2170a0f3c3d3048d013ff);
    e := SqUpBy(P, 2, e, 0x8de3d0ec62b72d4aeb36cbf321895273c2f8448d08a0b497109c12f489b2c1e2, 0x6e2d810e012990ba08c94aa0c410b588aa700f806cfc1a913b86e92aa73c60bd, 0x9d497dc124eba6dd56bb03e2c38f0c79180700122111b092fcf29086fa377703);
    e := SqUpBy(P, 2, e, 0xdc5b021c025321741192954188216b1154e01f00d9f83522770dd2554e78c17a, 0xdbbb5df503c986928b1569af9a522718d6af3a984fdc73d313a7e54d9c5a832, 0x17b5917f547d9f7662ae5efdacdbd698f78a9faa5161aecb640b179eb2fd9eb7a);
    e := SqUpBy(P, 2, e, 0x1b776bbea07930d25162ad35f34a44e31ad5e75309fb8e7a6274fca9b38b5064, 0x63381c54556977fecd9f69420155b7a7f840de04a3f47c71db193c6177206661, 0x5e4d0df1cd7521f4ffcf1cb9533c445f0e9f9d0dd1e94632348015fda98178b);
    e := SqUpBy(P, 2, e, 0xc67038a8aad2effd9b3ed28402ab6f4ff081bc0947e8f8e3b63278c2ee40ccc2, 0x611ffcd5e6b7056167cb8d378119e56f512624e2b25dacd77540aebc585eff82, 0x133a391ad10bbfb5673c793de2ade74c79267f7bff6e81cdefed1ae154b8ecd4a);
    e := SqUpBy(P, 2, e, 0xc23ff9abcd6e0ac2cf971a6f0233cadea24c49c564bb59aeea815d78b0bdff04, 0x2925015c6e2346f7bf5bf4ad6a34f770e6559ea90e1e24c34c27422ede7988d6, 0x126ca0cca72d31ac96a9bea1b8f3214692379d08d6c3362c117b87fb99f6580e2);
    e := SqUpBy(P, 2, e, 0x524a02b8dc468def7eb7e95ad469eee1ccab3d521c3c4986984e845dbcf311ac, 0x6e110fd630e06b7ff3308268cf427039046db0d4b9905b4b06c8043228cf1c32, 0x34e6fe480007e94bf1a062ef60253eebdb3503fbb113a40cc38fe39aaee5d516);
    e := SqUpBy(P, 2, e, 0xdc221fac61c0d6ffe66104d19e84e07208db61a97320b6960d900864519e3864, 0xfdf1d87db859b066f8f4634b7652ebfeadd6659afdc23c898f255cc6177929c, 0x17a9555f96b71390248ed0fcf85574e8bb74745ed21ad077f6f1edea4644b8fc4);
    e := SqUpBy(P, 2, e, 0x1fbe3b0fb70b360cdf1e8c696eca5d7fd5baccb35fb8479131e4ab98c2ef2538, 0x3dc3e30d10de8b03ef36bc8b1389ee2bc29112b12cdf4b973888237c27ccf7ba, 0x7df3f530e915622f47fc6f08e499932c0b2309fcacb0b98f1b7c76e254109de);
    e := SqUpBy(P, 2, e, 0x7b87c61a21bd1607de6d79162713dc578522256259be972e711046f84f99ef74, 0x495926b60c75bb45bb9279fbe9eead8c71a52d1f38dd1ee03ab6c985d67f055d, 0x773780bf4a8f6ee851f175a62aa255ecc7e955140a4f597b8be894c252d5bf9f);
    e := SqUpBy(P, 2, e, 0x92b24d6c18eb768b7724f3f7d3dd5b18e34a5a3e71ba3dc0756d930bacfe0aba, 0x5b5667c232662af58896ff267450cbe05073ee9d32e606da16c34ba2116a8dde, 0xa81fb8fe1c52de9538817f9f6b0927601147f03e66d6632f4f045660264f219e);
    e := SqUpBy(P, 2, e, 0xb6accf8464cc55eb112dfe4ce8a197c0a0e7dd3a65cc0db42d86974422d51bbc, 0x4198eb22cffdff94d05e7d7b13c884bc6a592e85534cc4441926b6005188ba32, 0x104b4576f82e2b8707b4f039bb7647b5300f0019b219726336c674f7097242f96);
    e := SqUpBy(P, 2, e, 0x8331d6459ffbff29a0bcfaf627910978d4b25d0aa6998888324d6c00a3117464, 0xeb51f0719f3e9b7378cab5de7e07d81c7f8247b721864a6da8afcd7574c2b2, 0x867815fdf777400a71ba2ac14f989ebcb670c295d390bec32b569548b5395e16);
    e := SqUpBy(P, 2, e, 0x1d6a3e0e33e7d36e6f1956bbcfc0fb038ff048f6e430c94db515f9aeae98564, 0x22cce60cfc8d5b3571c2ba25e5eba347558ec5e50921c862b6f317084b65bc23, 0x6c27c4d5520c7a03dd519681b2419d755df8300fad2aaa76059922dc83f01);
    e := SqUpBy(P, 2, e, 0x4599cc19f91ab66ae385744bcbd7468eab1d8bca124390c56de62e1096cb7846, 0x29cf70a45993ba7bf9d576532f88808c6fae5027bbf09197ef6c6c1e674d4d84, 0x25d888d7341b1fd1ad81b6b0fc6265045e93a94f86f6f980d61d1d16f7fd0820);
    e := SqUpBy(P, 2, e, 0x539ee148b32774f7f3aaeca65f110118df5ca04f77e1232fded8d83cce9a9b08, 0x5dac113b2ef112f099df1a17cae04f873c8a10377a50694bba0667999b505e51, 0x36a0d1600053343b927eebc635c5b4c93dc87469b357921418d3876b7725c5cb);
    e := SqUpBy(P, 2, e, 0xbb5822765de225e133be342f95c09f0e7914206ef4a0d297740ccf3336a0bca2, 0x62a2512ff0891878d62f161914f1e582d668da84cab83a332f59d7400da6b27f, 0x11233c16146592cf79ac88f504b0b1282cebc9adc2fbe2c0685dd141da6bec179);
    e := SqUpBy(P, 2, e, 0xc544a25fe11230f1ac5e2c3229e3cb05acd1b509957074665eb3ae801b4d64fe, 0x418f181a33efc36a87470913ae61f999997a7ccd69f79d9c7d51122818ee8825, 0x13005689c74a61b8395ff5dcb1290dae35b46e022a070d158bf6555f8a9e9017b);
    e := SqUpBy(P, 2, e, 0x831e303467df86d50e8e12275cc3f33332f4f99ad3ef3b38faa2245031dd104a, 0x6280b960561d22ad1986c17e0fe2743691eb35f9036dc772a8dc42af83b04096, 0x864fd1c9ef559c1facb23b1eb533ac8fa4da6e9cc09428a61cc6adc0bd6a4246);
    e := SqUpBy(P, 2, e, 0xc50172c0ac3a455a330d82fc1fc4e86d23d66bf206db8ee551b8855f0760812c, 0x428e527194270e4cb27404e62ad9908e07e218de10772f190e911a9e2cd83dad, 0x12f36753d440663301ca3d1d8c01aba585b33089315b59078e211014a59674f0f);
    e := SqUpBy(P, 2, e, 0x851ca4e3284e1c9964e809cc55b3211c0fc431bc20ee5e321d22353c59b07b5a, 0x31f5a8f50b4e6f334ba6d68cef39e786afe0ac614e278dfe2a456e3a0d9cbef6, 0x8a6d8d11078ba00473d5de102c03f06c7e61620f503413312552bec4d2a76da6);
    e := SqUpBy(P, 2, e, 0x63eb51ea169cde66974dad19de73cf0d5fc158c29c4f1bfc548adc741b397dec, 0x44f99569e5a73ddf6cfb45445f7f2f0bb94317c8544ebfc9eee5ea7c0fc5135e, 0x4dffb35516f1a0c08dc5644602ad498af951bf33820038cb5ba2286027eefcba);
    e := SqUpBy(P, 2, e, 0x89f32ad3cb4e7bbed9f68a88befe5e1772862f90a89d7f93ddcbd4f81f8a26bc, 0x4146829cb089be4c7540811c5bb1aaa8841074e2b345387a619e01324f8b5029, 0x94ac55a209b04abf6e17ad83bf5db2bcfc5521d58ac2b9777eef33a1d786aea3);
    e := SqUpBy(P, 2, e, 0x828d053961137c98ea810238b76355510820e9c5668a70f4c33c02649f16a052, 0x6d29bff0659ad9df53ed9c157f5dd5736217e26fe4a012edbfa41d4bca3b6b4e, 0x85270dfa0fd0095361f1270e42a257aed9476f1fcd395d90aa6deb5f7909f00e);
    e := SqUpBy(P, 2, e, 0xda537fe0cb35b3bea7db382afebbaae6c42fc4dfc94025db7f483a979476d69c, 0x4e1130934def2ec511f445ee7d077d2fc8e304a89c353220efd1c72fb62805d8, 0x17464a20e0b7813ed964444aa60e232a2db1ded2422927205a32f9833d4c27718);
  }

  lemma ChainP_2()
    ensures Cong(Power(2, 0x1ffffffffffffffffffff), 0x60c27697f559f88c2f8b1f2db010c5cab89e19c30795269440b599e1a9e3b23c, P)
  {
    hide Cong, Power;
    ChainP_1();
    var e := 0x1ffffffffff;
    e := SqUpBy(P, 2, e, 0x9c2261269bde5d8a23e88bdcfa0efa5f91c60951386a6441dfa38e5f6c500bb0, 0x29f0b6ac565cdb89669fe95310bf17a282efa08f7465403fde17773d127bfb96, 0xbe73d60a022d6204b884ddbdff766314d952d6bef7a805d59417c8d3db27c1d2);
    e := SqUpBy(P, 2, e, 0x53e16d58acb9b712cd3fd2a6217e2f4505df411ee8ca807fbc2eee7a24f7f72c, 0x32fe9fa70b760944477db8664594514939c2352ed0c11e712292e1d78d072c94, 0x36f7e6d1c92959eeb4844271adce92a58be97f148be1f33e484a0ada549a976c);
    e := SqUpBy(P, 2, e, 0x65fd3f4e16ec12888efb70cc8b28a29273846a5da1823ce24525c3af1a0e5928, 0x2a5a2e488de8552af8b58ca7eec071832d60cd960a445ddea7c1bd5b0a090e53, 0x51439cf39c2e38ad1b89e4edc511b754d2a4133af1471707ba5235c6caa9e801);
    e := SqUpBy(P, 2, e, 0x54b45c911bd0aa55f16b194fdd80e3065ac19b2c1488bbbd4f837ab614121ca6, 0x22f3c465a3a1af0db7e1028b2365f075b0125a6e1442fc4df6844d113102d2dc, 0x380db7a30f9156ecde3c6037aa36998ad12a831056683b48052857c0612ea2e8);
    e := SqUpBy(P, 2, e, 0x45e788cb47435e1b6fc2051646cbe0eb6024b4dc2885f89bed089a226205a5b8, 0x73c462bcf9bbeaf5901781b81a6ac6b3e4e235cb1b01996ba25cecfe0ccc2311, 0x262d424b78bb12e098da3a2460d75e3fea9afd9d0f062119232e7c0f03ce9a0b);
    e := SqUpBy(P, 2, e, 0xe788c579f377d5eb202f037034d58d67c9c46b96360332d744b9d9fc19984622, 0x701812486c4cfaf974f01300d333e215beb6c58e482d7d925ad8f9af6ce26b78, 0x1a2d03ae8fe93bc6037efb453c17f82716d373bcf3766e73c3af8beddf8475bbc);
    e := SqUpBy(P, 2, e, 0xe0302490d899f5f2e9e02601a667c42b7d6d8b1c905afb24b5b1f35ed9c4d6f0, 0x3f3fd2bc782dbfa8d405c16aef99aedd28f5b54fb6e212c545de64e5557c1b4d, 0x188a892166d2f6e0a0c0a4a823bffbe28a160f1bd68e2c0df62f481bb66d1281f);
    e := SqUpBy(P, 2, e, 0x7e7fa578f05b7f51a80b82d5df335dba51eb6a9f6dc4258a8bbcc9caaaf8369a, 0x5bddadde6232b420a43c6033815d83700eff781112e82b0392a363e479118831, 0x7d03cd114b1b5629bc04bd9f2fa317762ce05434cc479796f40afd3f0ee5b1df);
    e := SqUpBy(P, 2, e, 0xb7bb5bbcc46568414878c06702bb06e01dfef02225d056072546c7c8f2231062, 0x60872df0e7763a9c4f562bff1dc679f176205dad43eeb0dcadac334b1c725b1a, 0x107bacc8e0edf4c09916ef96816f4cb75f707a4278e504863e040a0c1e9b742d2);
    e := SqUpBy(P, 2, e, 0xc10e5be1ceec75389eac57fe3b8cf3e2ec40bb5a87dd61b95b58669638e4b634, 0x71cbc14ab59681e1da877137a4ac1d0be104e57fb7941daf9846de47d121c01d, 0x1232d4eb14f5af5cb5f5dd9d7b9125ea0e5ec62387ca61597cf4c5f04002617df);
    e := SqUpBy(P, 2, e, 0xe39782956b2d03c3b50ee26f49583a17c209caff6f283b5f308dbc8fa243803a, 0x6517a8d7e9df913f663788e04ea156e727e0b124175810ec2ca9f8ded3503ea9, 0x194ac168095e4b7ae561f97c891bbbb07eca25c5a950e41147e026c35bd4d2b07);
    e := SqUpBy(P, 2, e, 0xca2f51afd3bf227ecc6f11c09d42adce4fc162482eb021d85953f1bda6a07d52, 0x31593ef18b6439e32b3260a0750c27a0bd231dd9795e9a4801a93923d6f6518f, 0x13f5d6b5125943ec1cef0c22f91ae6777f972250581993f9aa3016f4fd244e6e9);
    e := SqUpBy(P, 2, e, 0x62b27de316c873c65664c140ea184f417a463bb2f2bd349003527247adeca31e, 0xf8c3e65ec0e3854bf51edb55f218b9032dda633ed6d7602b418500e86fcf6df, 0x4c1a49aa56496a2c0912b6127c08bc4942f6bd7b57238526aca413464109fc99);
    e := SqUpBy(P, 2, e, 0x1f187ccbd81c70a97ea3db6abe43172065bb4c67dadaec056830a01d0df9edbe, 0x2ed84f203b74e77a4b2c7b94ec2bc2c90b683a30b31ae5e7c78bc685ae11dba7, 0x78de12202cb08945a449d42ddc489d9bdd4471440ca59ba4c68297036676531);
    e := SqUpBy(P, 2, e, 0x5db09e4076e9cef49658f729d857859216d074616635cbcf8f178d0b5c23b74e, 0x58269c2697cede1bc513e8cc8cd254a8a5ab6b571e54e05000d9a688664942cd, 0x449399a9a1ba09bd1a4a443a32dd119d3eba9eb0f38517bc2f9d6229b89db7f3);
    e := SqUpBy(P, 2, e, 0xb04d384d2f9dbc378a27d19919a4a9514b56d6ae3ca9c0a001b34d10cc92859a, 0x78a290715686983272324507d473909a4ae01119d517affdc26276de6e4b379e, 0xf2d4896a1892c7948eed5c9bd87d33e714afe2160a34cecf3ae3399f62c8f05e);
    e := SqUpBy(P, 2, e, 0xf14520e2ad0d3064e4648a0fa8e7213495c02233aa2f5ffb84c4edbcdc966f3c, 0x3eb0a4f86aafa5f36cb959339f378ef6fba1dc08d2f87df67a7091fd166f03e, 0x1c6c6752b107b2466b18bd2ed3921f26a0d49872a88beab8bff1831566dd44eda);
    e := SqUpBy(P, 2, e, 0x7d6149f0d55f4be6d972b2673e6f1dedf743b811a5f0fbecf4e123fa2cde07c, 0xc31b10f7ce6283f15e45a9a06e6e29635a48194285e833b98da03ca06363163, 0x7ad04e5c9c77fd302634f78d6f651468be2298f9bd8ed72584c87a4e0a5dc1);
    e := SqUpBy(P, 2, e, 0x1863621ef9cc507e2bc8b5340dcdc52c6b49032850bd067731b407940c6c62c6, 0x1916478caa100999814be3458620304c8cb49fd60ed67dabc18c3451935d5688, 0x4a591f5b0ce7c3bae1c1be75461cda077923e7206bb6ba2910a91e82f7bd98c);
    e := SqUpBy(P, 2, e, 0x322c8f19542013330297c68b0c40609919693fac1dacfb57831868a326baad10, 0x5f4baaf814d6c93647940b43761366aa2d2c28f6934d4687596e1fff8e9ff1e4, 0x13aadf4ecb1d8207cbcff669d3dcaefd8ba312456f2ff26cf96183e6ad63700c);
    e := SqUpBy(P, 2, e, 0xbe9755f029ad926c8f281686ec26cd545a5851ed269a8d0eb2dc3fff1d3fe3c8, 0x2d12cde80118cdc9338b67e40eddc1195e3da45e7315a6dbddd1034c3159fe10, 0x11bc9fa0df8105a2ea01027dbc850b228f49601a115dd0a181462cd8ae4bfe0f0);
    e := SqUpBy(P, 2, e, 0x5a259bd002319b926716cfc81dbb8232bc7b48bce62b4db7bba2069862b3fc20, 0x60cf9d8d4c7c8644e91fc193dc8dca565be10760d8c205836d7bf4b0fb7fbef3, 0x3f7cee2955021ecb17a57af23f41aef5738a5d8cdb765d98330517be34f875a1);
    e := SqUpBy(P, 2, e, 0xc19f3b1a98f90c89d23f8327b91b94acb7c20ec1b1840b06daf7e961f6ff7de6, 0x14de8de2fdb80db101081218981d95a5451d157b10988cb1c705a2a581ad19a1, 0x124e2f45126ad9f1737fb6577b4643610c793c432592a4c12785214b499df16af);
    e := SqUpBy(P, 2, e, 0x29bd1bc5fb701b6202102431303b2b4a8a3a2af6213119638e0b454b035a3342, 0x7855af516d125b26a6b8c8f77df4265f22e855cb1422a7924ac8a9c25f5bbd01, 0xd9c3d2edfc510e8d54c1efbde930c533c534f381abef5cbbdb70af3ef16c1af);
    e := SqUpBy(P, 2, e, 0xf0ab5ea2da24b64d4d7191eefbe84cbe45d0ab9628454f2495915384beb77a02, 0x7329153aa6c48ddf652b01b96a2f353fba48ec0315474d63ee1e900be161d347, 0x1c4838851d32085508568e39bcfeb0343d9e5f5778e674deb386458b446c1ae11);
    e := SqUpBy(P, 2, e, 0xe6522a754d891bbeca560372d45e6a7f7491d8062a8e9ac7dc3d2017c2c3a68e, 0x6f004b29f283e2ca44c33c572e801ba03f6adfa3085a25392e8cb3adf79eb600, 0x19e6f7d54030579c31b6bd06a63b1470072ae661e703811cadb0c3802b71a0354);
    e := SqUpBy(P, 2, e, 0xde009653e507c594898678ae5d0037407ed5bf4610b44a725d19675bef3d6c00, 0xbe99db00dafb45e3c74e6305ba8d6a35fd2347f628294145e9c4fb09541ae3e, 0x1810a0973b2ffcd221400a102a12601f673c5633368d5ae370c063303ff244c8a);
    e := SqUpBy(P, 2, e, 0x17d33b601b5f68bc78e9cc60b751ad46bfa468fec5052828bd389f612a835c7c, 0x3f2a20f8289c3096f9db90ad725cbf6d00b648fcb744b51f91c2cb9e4bc81c1d, 0x46f45ec663b6996125809bac852ece2b2642d27b3aeaa749c362ca04e7f835f);
    e := SqUpBy(P, 2, e, 0x7e5441f05138612df3b7215ae4b97eda016c91f96e896a3f2385973c9790383a, 0x63ab803dc620a5ffcda17e04c2f0df618f66238ca1fdf78c722b27f1e084f148, 0x7cae1947cd496f000dc8f5b220a786aec1bf2eeda8aa0ae0237c7845cc2757cc);
    e := SqUpBy(P, 2, e, 0xc757007b8c414bff9b42fc0985e1bec31ecc471943fbef18e4564fe3c109e290, 0x2291230452d6e9d6d5d03c7cd1c446d05d448a5d2e0ad49a2c075efe0305f8a0, 0x13670c0a2d00e28523d685d891e540e0ffbf9309ddd3591aa2e559eed6e202de0);
    e := SqUpBy(P, 2, e, 0x45224608a5add3adaba078f9a3888da0ba8914ba5c15a934580ebdfc060bf140, 0x25deb7b1fd8ce9938495064332a122d3173db0728f917b071b3cb0b747045ea0, 0x2556fcaead88e25b5cffaae5af4b6670d1a013e888e4bcaccc8b9d33e06e0ae0);
    e := SqUpBy(P, 2, e, 0x4bbd6f63fb19d327092a0c86654245a62e7b60e51f22f60e3679616e8e08bd40, 0x64261825967f194085b5f7ba80176eb525e83d193241d0aa3bec1dcbc983557a, 0x2cd116e47e73814e70c5f87485d4648231bbf5eecce6101d7067a580a73e17de);
    e := SqUpBy(P, 2, e, 0xc84c304b2cfe32810b6bef75002edd6a4bd07a326483a15477d83b979306aaf4, 0x473e230b5ec642020d977e4b44a058ce41cb7d5b0d58b6a501131fc66edb64f3, 0x1396e444458185994ac838fcd8d83e4d69a40a138caf0f3d5261de97190e88c71);
    e := SqUpBy(P, 2, e, 0x8e7c4616bd8c84041b2efc968940b19c8396fab61ab16d4a02263f8cddb6c9e6, 0x42811c0ac0ba62a8fd850385ad74612471f643c717bae7d9000871461bd6954f, 0x9e9c342a66ffe884d5a85ab99207a2310c01a0d7e80dbcc7b28c985904153e09);
    e := SqUpBy(P, 2, e, 0x850238158174c551fb0a070b5ae8c248e3ec878e2f75cfb20010e28c37ad2a9e, 0x182482aead52ca2205738d0eed14b0a810f52d9376a8868544ddf9fb6820b3d5, 0x8a369c968a458a97b226f1c309808fe734d95089ae21a0876f2d4a82fe7fd08b);
    e := SqUpBy(P, 2, e, 0x3049055d5aa594440ae71a1dda29615021ea5b26ed510d0a89bbf3f6d04167aa, 0x9a278f9c0566e3642665ee48e278f1e1e7b06e5ae3de7534632ace03127e6d, 0x1236edae22b1233b0e2c359aae06be86ab3147d8c482b97090a333f178ac0373);
    e := SqUpBy(P, 2, e, 0x1344f1f380acdc6c84ccbdc91c4f1e3c3cf60dcb5c7bcea68c6559c0624fcda, 0x302df8d0bfff6e2d1179d525aa15d7e774accc77fc66f1de8327bfc7549af757, 0x2e69cf72644c8e06a72144776f33d8c2120e88357c9c37c0acafe9480afe1);
    e := SqUpBy(P, 2, e, 0x605bf1a17ffedc5a22f3aa4b542bafcee95998eff8cde3bd064f7f8ea935eeae, 0x36d205d6ac2ce0587bf0690bd0aaad385201887308750296e534af37413111de, 0x488a2c7d99c33aa8b77aa8fb7a0598e0b7ba07dc2f046e4e32b386d36966953e);
    e := SqUpBy(P, 2, e, 0x6da40bad5859c0b0f7e0d217a1555a70a40310e610ea052dca695e6e826223bc, 0x16f1e09ed4a7d92698d3948fd4be3f5304bb73dd3d7926a07ebf8b31c31af64f, 0x5dea362127bbf81ba85d06c5b828722d057ee70b3fedb01d5fdee467f88928a5);
    e := SqUpBy(P, 2, e, 0x2de3c13da94fb24d31a7291fa97c7ea60976e7ba7af24d40fd7f16638635ec9e, 0x30613b4bfaacfc4617c58f96d80862e55c4f0ce183ca934a205accf0d4f1d91e, 0x1073b91fe57ca053465105927194ef7c0588ead72991613a7569cbfb8ec7b13e);
  }

  lemma ChainP_3()
    ensures Cong(Power(2, 0x1ffffffffffffffffffffffffffffff), 0x8f07602cd009e6ccabc1a25642a7dcd28374c01dd2e197131136915896c8a46, P)
  {
    hide Cong, Power;
    ChainP_2();
    var e := 0x1ffffffffffffffffffff;
    e := SqUpBy(P, 2, e, 0x60c27697f559f88c2f8b1f2db010c5cab89e19c30795269440b599e1a9e3b23c, 0x26141ac60531e23d6f1c7783aa6ae7da3c108953412483daaab249143b2e736c, 0x4924d953da878e5049145999e3e32a876404415e3efa28b4710afde1dd8278b4);
    e := SqUpBy(P, 2, e, 0x4c28358c0a63c47ade38ef0754d5cfb4782112a6824907b555649228765ce6d8, 0x1344322352e083829b5dc03045cefb6fecdfad74ba455d1beb9afe60f0fd3e39, 0x2d4fcc37da43897e0e79f0b1aa31427d221e7c81e33bb9b478d4c61fbdc47143);
    e := SqUpBy(P, 2, e, 0x26886446a5c1070536bb80608b9df6dfd9bf5ae9748aba37d735fcc1e1fa7c72, 0x3625fbca4d30ebc9d6891660e85ce8ec959675bf14dccf0411ae75adab5b7e6c, 0xb998cdf57196055c0503f1392f0c49bf6ac444dcd0e95733b4795c95e1dbab8);
    e := SqUpBy(P, 2, e, 0x6c4bf7949a61d793ad122cc1d0b9d1d92b2ceb7e29b99e08235ceb5b56b6fcd8, 0x65c6b78886cde9f4ba16ecb5d9ca29336fa594f5fc9718e91ab0c89ee74b3ae0, 0x5ba05ee0c58a36c92d91abcb61767ca7e90e535ee62a140ced0a5e70e8f87ce0);
    e := SqUpBy(P, 2, e, 0xcb8d6f110d9bd3e9742dd96bb3945266df4b29ebf92e31d23561913dce9675c0, 0x40ed957dbff94d4dc277d25ddbcc12e1e5d09715a41da4947abdcb1adde1a268, 0x143b33891291bd5573d34f6e703faa839c3b57fc54799bd0b8971aaee167580f8);
    e := SqUpBy(P, 2, e, 0x81db2afb7ff29a9b84efa4bbb79825c3cba12e2b483b4928f57b9635bbc344d0, 0x222f55114181eba060f864088d50d21ed0ba324397708e42e45b931fb3e5fe7c, 0x83bd39e810edcbea04ef8bdaa2f553504ae11530db96108ec3c0573cf1805c14);
    e := SqUpBy(P, 2, e, 0x445eaa228303d740c1f0c8111aa1a43da17464872ee11c85c8b7263f67cbfcf8, 0xb485da8d89fb706f706598ec712a0572304cd97ad547f1251a6e4704406f93a, 0x2484dac7700837a94914e87caec030d2923f45f4c5226378c13caedb3d17765e);
    e := SqUpBy(P, 2, e, 0x1690bb51b13f6e0dee0cb31d8e2540ae46099b2f5aa8fe24a34dc8e0880df274, 0xb24413d7367a84b5f9efabf0710c4307e0f1c2860a4b5714fd14e01c87c441b, 0x3fa640a9edd829508758320c97b155227b151612c12e6bed1d0ae59796ce1a9);
    e := SqUpBy(P, 2, e, 0x1648827ae6cf5096bf3df57e0e218860fc1e3850c1496ae29fa29c0390f88836, 0x1b727f7bb87075d8777de8a0072e7711c9704cc339a7939e6484fbe5c143459d, 0x3e115ed8e9d07c5326a9f4e8505c8d3a1052ca7cb3d91ac626f20d9186dfe03);
    e := SqUpBy(P, 2, e, 0x36e4fef770e0ebb0eefbd1400e5cee2392e09986734f273cc909f7cb82868b3a, 0x88dd77c767bf4a0000feb9a555096e234c105d7641adcfe60aad8ae1b471737, 0x178ad0cf149fce779ef6d4a97a1d21dab2caee55469d88878f0d6e73a3ba7a01);
    e := SqUpBy(P, 2, e, 0x111baef8ecf7e940001fd734aaa12dc469820baec835b9fcc155b15c368e2e6e, 0x5f60fdc4d3434391bd91ef038a43a86c611abb3b50b5abf5292a91253ac7932e, 0x2496076df247ae5608a6733b084ed0bafaa3e83bcd46c1f30880ab6472cd5ae);
    e := SqUpBy(P, 2, e, 0xbec1fb89a68687237b23de07148750d8c2357676a16b57ea5255224a758f265c, 0x33e568e3ebe3fe9b09a5e7d0730ae040985425f02ca0ec84c8696dec69b624e4, 0x11c4908bb1fc7fbffc72fbe1a5e32684ea370d385828ee0186e2023c5136e3f5c);
    e := SqUpBy(P, 2, e, 0x67cad1c7d7c7fd36134bcfa0e615c08130a84be05941d90990d2dbd8d36c49c8, 0x3d874996db10d97f864d0e9b655257b5c95c8c7e3371138c03051bd5ea09e499, 0x5429aafd15d6bf65ae39e3aec9c2c67c0f3d4c1484fd56d0109875a06a512b63);
    e := SqUpBy(P, 2, e, 0x7b0e932db621b2ff0c9a1d36caa4af6b92b918fc66e22718060a37abd413c932, 0x555da64a990dbc6d86feabb4724fbe109acd02f93403e2efb55dfc5bf066422c, 0x764e0484b543aa09cdfe7c071a8f52ed954979dd41c00201b0fe78769ce316f8);
    e := SqUpBy(P, 2, e, 0xaabb4c95321b78db0dfd5768e49f7c21359a05f26807c5df6abbf8b7e0cc8458, 0x37cbe463b4ed0e148fb19e69bf40bdab3c027c453010b8a0f3f0243bcacbd2bc, 0xe3ba957e3ed93ab2584ccb5400d3b7b0454e69d5b56960627d88f105d237a114);
    e := SqUpBy(P, 2, e, 0x6f97c8c769da1c291f633cd37e817b567804f88a60217141e7e048779597a578, 0x624e17a91c999eec82041d9d6086ce5f9f8db446738307f34d22b19d28c9d807, 0x6149f436cd0468e6d52f877172d0dd1eae0ab7596f09e6af3bfb724b84c04ffd);
    e := SqUpBy(P, 2, e, 0xc49c2f5239333dd904083b3ac10d9cbf3f1b688ce7060fe69a45633a5193b00e, 0x6692823c38842931ce29b65426790cbbc21787a4fd815e52df80f496382aeb30, 0x12dff0f7f3916f12261f55e1032e41d5c273a58454dd4d1a684778e4be1003164);
    e := SqUpBy(P, 2, e, 0xcd250478710852639c536ca84cf21977842f0f49fb02bca5bf01e92c7055d660, 0x258a4bf4aed28b21fe4b927c3ae32768e3bd150759b9e6d59af4c6181d894efa, 0x148c89d065fd7f91b8ae2fed29c78f9ff241ab9e9857e168b2353376836a54c5e);
    e := SqUpBy(P, 2, e, 0x4b1497e95da51643fc9724f875c64ed1c77a2a0eb373cdab35e98c303b129df4, 0x3c2bbe3c112dc61d319c585d797273dd6eb7337e9b2ebca8670537cdf0a5647f, 0x2c0a2555a6f4fc1753503f4d1f585b17d0572443e8e65d2462141488ad851035);
    e := SqUpBy(P, 2, e, 0x78577c78225b8c3a6338b0baf2e4e7badd6e66fd365d7950ce0a6f9be14ac8fe, 0x5b9c53075f091f2fc41292a218575f7611af053558fc08c2aae539ed1447aa0e, 0x7124452cecc38eb1edfa1e1fa79ffcf9251e6e6641b2efcf9e34e56e68d29f0e);
    e := SqUpBy(P, 2, e, 0xb738a60ebe123e5f8825254430aebeec235e0a6ab1f8118555ca73da288f541c, 0x71603ce4ecfe23809e733a07142e8a5436d363be96cf8f565b70f5492daa6b48, 0x1064413e44bd0b901bce4f0dafd18ac47b8eee9c29f4e657737f49a4448250de8);
    e := SqUpBy(P, 2, e, 0xe2c079c9d9fc47013ce6740e285d14a86da6c77d2d9f1eacb6e1ea925b54d690, 0x308b34c797dee06cffeec590a2d50ab06aa5e297ffe195f94ea5e3fa46dd0c5d, 0x191b0cf7e9b31ae02688d262d0ef195732dceee5342e057086bc913f37e8de4cf);
    e := SqUpBy(P, 2, e, 0x6116698f2fbdc0d9ffdd8b2145aa1560d54bc52fffc32bf29d4bc7f48dba18ba, 0x7fae7f28b8b0f187c0f7375ee80b4f56ec64d9b21402dcf482745d43d6176e53, 0x49a3fbe9a4a18c04c0eabcd22a88eecc491b30c9b8101dc9b04e657bbcb4d7f5);
    e := SqUpBy(P, 2, e, 0xff5cfe517161e30f81ee6ebdd0169eadd8c9b3642805b9e904e8ba87ac2edca6, 0x4db1f570e0818e49c3f6c6ad8dcaee8604b4f38842b9597355ab999a05ae53a6, 0x1fd74c8dc0e206f369174d3094aeda6778bb4e9770a2625c136e423dda09f9c36);
    e := SqUpBy(P, 2, e, 0x9b63eae1c1031c9387ed8d5b1b95dd0c0969e7108572b2e6ab5733340b5ca74c, 0x3e6791e4e528cef12827cea3aec8f8a3f20690368b265ceaa1ce7c3886504e54, 0xbca44ad9c3ad11e293e0d7b5feeba34013c2be279372fd17e31fa3a78b1251ac);
    e := SqUpBy(P, 2, e, 0x7ccf23c9ca519de2504f9d475d91f147e40d206d164cb9d5439cf8710ca09ca8, 0x5dfb3074f232ecda69af2faca8d86efbfc4c84428027b04af35bb9bdf329f6ad, 0x79b2a48cc2aa1aa46e0b6f479ed20d24c3ad59b27353de58e1b83c5086ce257f);
    e := SqUpBy(P, 2, e, 0xbbf660e9e465d9b4d35e5f5951b0ddf7f8990885004f6095e6b7737be653ed5a, 0x99c24456e857cae2027d0201089d721921f623e75a6c56de8bbb90cc6b22537, 0x11403bd6833c00195098b2d55c141c4d8ee1a2ec9e4981f54a5d6badf1edb4881);
    e := SqUpBy(P, 2, e, 0x1338488add0af95c404fa0402113ae43243ec47ceb4d8adbd17772198d644a6e, 0x47ebd97ccc52b2a1df1be0bbf4284447c13939340007f24caa50891c84327bd3, 0x2e2ce48dc3d7af409b94686ec2ea6f2ba7a7249b258365c4bb03b480efae115);
    e := SqUpBy(P, 2, e, 0x8fd7b2f998a56543be37c177e850888f82727268000fe49954a112390864f7a6, 0x370ab432446f8cc9c9500da54564a43af332eb1176f043a7175a1339d4cc13f2, 0xa1a55f61e9ce712427c3a269436e739509f3f7ff1dbe675bfc3c8686cab6703a);
    e := SqUpBy(P, 2, e, 0x6e15686488df199392a01b4a8ac94875e665d622ede0874e2eb42673a99827e4, 0x232a603960be1556eca928d92a1fb7774571e45ae43ac766ee0527341538847a, 0x5eaccf0161600a8b00f2ab7f1466b3ddd3f4935a7f36c080bb7ff7a523cd8a2e);
    e := SqUpBy(P, 2, e, 0x4654c072c17c2aadd95251b2543f6eee8ae3c8b5c8758ecddc0a4e682a7108f4, 0x582ffa8279c64ef56aff51543fc42af6927b0e236b56a276c6ed94a713ce3a3e, 0x26a4ea9b3b966cfc738dc02f5858c793d7765cc62d46a6b211a8dc14f401295a);
    e := SqUpBy(P, 2, e, 0xb05ff504f38c9dead5fea2a87f8855ed24f61c46d6ad44ed8ddb294e279c747c, 0x3fa8aa5c4d4bc999a2c96f35c89566125e47d85d2732ca9049e5d11f0e8d0bb1, 0xf30829bd26212b8789cb413ad0761fd19fb8fcb57b5e9420a35051d029cfcffb);
    e := SqUpBy(P, 2, e, 0x7f5154b89a9793334592de6b912acc24bc8fb0ba4e65952093cba23e1d1a1762, 0x420c31343bd69f86179bfde70d518e17b06c67f693d2bbed7b50ee598bde45c4, 0x7ea397cbc47bc5142aa36ba9140ab11b5479b550fc35e554c6559cfefa6972c0);
    e := SqUpBy(P, 2, e, 0x8418626877ad3f0c2f37fbce1aa31c2f60d8cfed27a577daf6a1dcb317bc8b88, 0x350ef24d17c88e01d5eadbd2dd8a29299f46e668bd658722d54c7286b4dc2be, 0x88524f9ca9aa7f84f7eb54292c90ea2d402a6f05ffec4d716c3db5a22506c74a);
    e := SqUpBy(P, 2, e, 0x6a1de49a2f911c03abd5b7a5bb1452533e8dccd17acb0e45aa98e50d69b857c, 0x3eb96084eb2faceb03f0ea13240bfeab23c49224fe0af1cbe88565de5c03b88c, 0x57f9899a8cebe75640e98714be169d2bf96c2a45cb96d93774005a888a3114);
    e := SqUpBy(P, 2, e, 0x7d72c109d65f59d607e1d4264817fd5647892449fc15e397d10acbbcb8077118, 0x7a91bceef06d77ecfdfb4a940e137b35919848565e83b14074b028c4680466bd, 0x7af287e83357c08723fc49e60ba065c191412f9d22bac14d0b109824c3b92b2f);
    e := SqUpBy(P, 2, e, 0xf52379dde0daefd9fbf695281c26f66b233090acbd076280e9605188d008cd7a, 0x19e9c1751ff78e5c7acf40b798881bc111cdcf268ab522a1a38036b40cd5f4c8, 0x1d579d85a7a2413a3903dd8e51102367b4df155305223b3bfcc9bcf4f2ca58b4c);
    e := SqUpBy(P, 2, e, 0x33d382ea3fef1cb8f59e816f31103782239b9e4d156a454347006d6819abe990, 0x70e1ae42ff4fde1e397c737e35b4d80e9dbe28259efcc3745232c5a7cccd1a96, 0x14fbe9d4cd22d1c5aa0bebd6b31101f530a63376dee30998b1a26307fd8b3ed2);
    e := SqUpBy(P, 2, e, 0xe1c35c85fe9fbc3c72f8e6fc6b69b01d3b7c504b3df986e8a4658b4f999a352c, 0x3dd5c2974112730d987ffecfe554849042ceb3734607a68c5cb41b317392ad1f, 0x18e31fb733e4e8ac0c96e27ba8f4cd9817f87e072844ec8b512feba305c306415);
    e := SqUpBy(P, 2, e, 0x7bab852e8224e61b30fffd9fcaa90920859d66e68c0f4d18b9683662e7255a3e, 0x4783b0166804f36655e0d12b2153ee6941ba600ee970cb89889b48ac4b64523, 0x777c89cbc4f55c2dcfdbcad23bf9fe39c7e63ee3a929023de6ac5132b8282345);
  }

  lemma ChainP_4()
    ensures Cong(Power(2, 0x1ffffffffffffffffffffffffffffffffffffffff), 0xbac4cdd312d5cbea8b140f7a382ccb7ac30a7d6bcc8bbc4f968160021d6be71e, P)
  {
    hide Cong, Power;
    ChainP_3();
    var e := 0x1ffffffffffffffffffffffffffffff;
    e := SqUpBy(P, 2, e, 0x8f07602cd009e6ccabc1a25642a7dcd28374c01dd2e197131136915896c8a46, 0x612aec37de08129d444b08b9a005a2d14cbc20616c79721705ab1e58f8b53ac7, 0x9fd27b50ee002885c1494d1c4a25a2638f39b662ec7a5a5c03aa9229a12431);
    e := SqUpBy(P, 2, e, 0xc255d86fbc10253a88961173400b45a2997840c2d8f2e42e0b563cb1f16a758e, 0x17378fa51747ad9a551db914784f0bb35240464a0828ccacdc6f489aaf0f0576, 0x1270c71a59470328a9db9da19310d6098808109da16121ff4bd5180aa4da834c6);
    e := SqUpBy(P, 2, e, 0x2e6f1f4a2e8f5b34aa3b7228f09e1766a4808c9410519959b8de91355e1e0aec, 0x538c62b8e5eb4ae9da20aa22a7ff0277c0af13600d51c9c63440a5d1779fe2da, 0x10d83ef59dc5e3bb60909a9cf0fed57d5fd2b6a57140da01c86567d18eba8ece);
    e := SqUpBy(P, 2, e, 0xa718c571cbd695d3b44154454ffe04ef815e26c01aa3938c68814ba2ef3fc5b4, 0x65384954ef1f4628148e78af81ac740ebb4c2a46482ef65f90d3d9ee29b8af48, 0xda22a8002b210c084a6a4c00fc792848f1fc63a412106e755139949553137b68);
    e := SqUpBy(P, 2, e, 0xca7092a9de3e8c50291cf15f0358e81d7698548c905decbf21a7b3dc53715e90, 0xc889014735333767501a632fb344026ee05d93421e4ac7421eac14e00141e61, 0x1402bb1e976c6bcbf9d2dc33775f85c2903323c5242715ff23017961ebcbcf33b);
    e := SqUpBy(P, 2, e, 0x19112028e6a666ecea034c65f668804ddc0bb26843c958e843d5829c00283cc2, 0x37d4196b86e0b8fcc54cd5860572e4c7dac6a6fff070995b1e34ba0a0c9be9d0, 0x4e8b2da8d0ac4ccdd6d1602b9d71f612fd917bdd491506863d29c97f29bcf84);
    e := SqUpBy(P, 2, e, 0x6fa832d70dc171f98a99ab0c0ae5c98fb58d4dffe0e132b63c6974141937d3a0, 0x5dce61a92735edc2c0693c688ae8217553e0cd90a2d11d08cbf5aa33623057b4, 0x616695328491098753ce9e205688d719e201641bbe58aa3759ab599014727bfc);
    e := SqUpBy(P, 2, e, 0xbb9cc3524e6bdb8580d278d115d042eaa7c19b2145a23a1197eb5466c460af68, 0x4a106a1814c3d36cefad4c142a909af45830a2d677c9b7d07722a82fc0d84d8, 0x112fccab1bfcf482e74e8d004efd8ccb279766b930f8bc9f417fc1a3d09926e08);
    e := SqUpBy(P, 2, e, 0x9420d4302987a6d9df5a9828552135e8b06145acef936fa0ee45505f81b09b0, 0x47db3a608ea8b2d6a8569fc0c71db7018917b62ad9c6861258ba1b9c9fa94a6a, 0xab6bf31ad7de115bcd597b135526d04182e3a0fa06b5ccdb03d044df609a2e);
    e := SqUpBy(P, 2, e, 0x8fb674c11d5165ad50ad3f818e3b6e03122f6c55b38d0c24b17437393f5294d4, 0x209b27ccc0d5d7bf6867a039690ef21f6c8ce735c8fbdd43ef083152dfc99366, 0xa15ab0f3ed2c67265d985d48e874a1551bc788befa274f869657d894922e8392);
    e := SqUpBy(P, 2, e, 0x41364f9981abaf7ed0cf4072d21de43ed919ce6b91f7ba87de1062a5bf9326cc, 0x7745a21f739fc0bb05dd287dc4c3d2358bc6607acd2904b45ae1aaa49f847586, 0x21393fe342b7fb414d7fb54175a05b2661e9ff31f2ae45c872c51502aa482bf2);
    e := SqUpBy(P, 2, e, 0xee8b443ee73f81760bba50fb8987a46b178cc0f59a520968b5c355493f08eb0c, 0x626b083072d3a2fda2871cea39f6a8d40311540f2bec846bde00d5653723ae04, 0x1bc8e7d5048f55bf948d88368a1c138097a18011aee7db3adc89499ec83b6fb3c);
    e := SqUpBy(P, 2, e, 0xc4d61060e5a745fb450e39d473ed51a80622a81e57d908d7bc01aaca6e475c08, 0x33bf5827488c7ec7c4fe3045ca340dbb2b4f58c47086c726eb3d7143f99cbd9b, 0x12eb0f8278568b0676c1ba3d6fa3833043993fddf894165a7c2c7cc82275f8699);
    e := SqUpBy(P, 2, e, 0x677eb04e9118fd8f89fc608b94681b76569eb188e10d8e4dd67ae287f3397b36, 0x2c55d21727fc8ec0e00d2c6a7bbe6b7e8026bda22248f9c9ccda0d899a7438f6, 0x53ae61227f0a208468e439ff2b76d334b1ac08a88f3409852aa36632c9f3f666);
    e := SqUpBy(P, 2, e, 0x58aba42e4ff91d81c01a58d4f77cd6fd004d7b444491f39399b41b1334e871ec, 0x24f0c4b9f6a06ce25d77265e84405688c3feddfb63aaa47798f997efc49813da, 0x3d6ce7e92c4af3dd47729750c09fb726d8c5c7895ca17fac4866d2d1bf7b41ce);
    e := SqUpBy(P, 2, e, 0x49e18973ed40d9c4baee4cbd0880ad1187fdbbf6c75548ef31f32fdf893027b4, 0x538261f08384ea186a3af18ed8a5104033917ce8e7277b683a233f4ac49f53f7, 0x2aa4ce2e09c6a13ed74bb23b222ece4d71ef45050cec487b0d133b60460cffdd);
    e := SqUpBy(P, 2, e, 0xa704c3e10709d430d475e31db14a20806722f9d1ce4ef6d074467e95893ea7ee, 0x4e7ec7af39d409bf3951415b728de99689ca0a810bce3010f305cc6d77b2564c, 0xd9ee6f4c982f43595ee6baf858c605d4a1bbdc227cb5803b82afc8f6aea527d8);
    e := SqUpBy(P, 2, e, 0x9cfd8f5e73a8137e72a282b6e51bd32d13941502179c6021e60b98daef64ac98, 0x5ec1f3272fb37853890668ce635e62f36c767edf30a359b3fa202743baab2c0b, 0xc08c03bf9be0340f1a3552a069171db173d28e4b99c6aaa4a00a8e72faec8e69);
    e := SqUpBy(P, 2, e, 0xbd83e64e5f66f0a7120cd19cc6bcc5e6d8ecfdbe6146b367f4404e8775565816, 0x56586e6f8ba863a539630e9625771618933d3a2d9c5d9dbd5dbb58b7570e1f8c, 0x118980c0a78891c3874afa1bd663a4d6f614e1c8ef2d9fe68ba02ca19426b50b8);
    e := SqUpBy(P, 2, e, 0xacb0dcdf1750c74a72c61d2c4aee2c31267a745b38bb3b7abb76b16eae1c3f18, 0xa071144ea896b6c0f7598b83b7be89fd1ec5a28a50935ff47d83d412648fb7c, 0xe8fc45f871499ab50ff59bc1465c5ff2ed5aa5616f306bce0c32f83274b5b154);
    e := SqUpBy(P, 2, e, 0x140e2289d512d6d81eeb317076f7d13fa3d8b4514a126bfe8fb07a824c91f6f8, 0x629ead25ef3c984cd7c2a1a35b9c3bea971dd00f524a11188c2a2ab05f7a3e0b, 0x3246c5aaa0e4ce00a17afc233cc9286fce65dd3d7aef0cae4086b6b20a58269);
    e := SqUpBy(P, 2, e, 0xc53d5a4bde793099af854346b73877d52e3ba01ea494223118545560bef47c16, 0x1809731db60c5be1b49f4974e188311983bdaf2a2088bfeaf434402335f7434, 0x12feef759d8cff2ee07cb6459f000d0af8326e422aa6f8221a1b791262554be70);
    e := SqUpBy(P, 2, e, 0x3012e63b6c18b7c3693e92e9c3106233077b5e5441117fd5e86880466bee868, 0x4feab8f5e02fe570f347d13c79262d641cedf9a9a26fa27c8733ec1cc4ee38f0, 0x120e2f76efe698d5145ded063c65a568161228da96cc0f81e7a8117a80ec90);
    e := SqUpBy(P, 2, e, 0x9fd571ebc05fcae1e68fa278f24c5ac839dbf35344df44f90e67d83989dc71e0, 0x7f9a6187cc08def1a1405e23deb0d79ab09f86310677629b01cd4d576cd0f16b, 0xc795aaf33bee2cb713b3a6938355ea939e44569a3a779d3bccaee3c8836df849);
    e := SqUpBy(P, 2, e, 0xff34c30f9811bde34280bc47bd61af35613f0c620ceec536039a9aaed9a1e2d6, 0x6cd286456496b60d8eba5688213abfbc3b76f305a6e603f777a1dda6f1425359, 0x1fcd44ef1c7d3c43c2d020c1becb3e88ba39528ccc0748d62da532b0b00957657);
    e := SqUpBy(P, 2, e, 0xd9a50c8ac92d6c1b1d74ad1042757f7876ede60b4dcc07eeef43bb4de284a6b2, 0x32d19c0bf6f047e0ce602277b2083e3f22ea2bf95c90ee5f3af9c02dd3c3ff42, 0x172127358e92747da302e733a3a2adfaa83462a1cb17e01957636788753c5824a);
    e := SqUpBy(P, 2, e, 0x65a33817ede08fc19cc044ef64107c7e45d457f2b921dcbe75f3805ba787fe84, 0x1e9a612df7abafaf644d0e18d7d2940cb3876ef5b46b801ce7abfd8583f74238, 0x50b464a6b8ed2f69610ad786ac977b5b8ce00322533db87965977dc19ffc0e38);
    e := SqUpBy(P, 2, e, 0x3d34c25bef575f5ec89a1c31afa52819670eddeb68d70039cf57fb0b07ee8470, 0x6786e12689407115ab3bf03f170b496b2d9c79a6051d22af6ba1c8d68ac4026b, 0x1d445efeb1f0ad6cbd114eb88565fe37a94cedb7ed2c057fd5f35c8342000449);
    e := SqUpBy(P, 2, e, 0xcf0dc24d1280e22b5677e07e2e1692d65b38f34c0a3a455ed74391ad158804d6, 0x2a259c3f4585fc2c5b1dd3ebaecbac4b60490185559998c9cc3ffc2964ff8422, 0x14eee81ebe6726c310fc98613360ab1ef1fdd9ccce4ddf827085fc269f4806d8a);
    e := SqUpBy(P, 2, e, 0x544b387e8b0bf858b63ba7d75d975896c092030aab333193987ff852c9ff0844, 0xf5de83b424b95568c708e413bdfe954a4f2ec9bb303a7b72e779c68353aecfa, 0x3782e65a63b9dec0470e68cd906815f1b5077eb447a16315e61de64e1a64faae);
    e := SqUpBy(P, 2, e, 0x1ebbd07684972aad18e11c8277bfd2a949e5d93766074f6e5cef38d06a75d9f4, 0x46078b1a6c1ba6c351c6ca97a58c874df3f9b1f3b0a4e0e6f88c7d3df5af9507, 0x7611d4bfbf3e25a202ff1a9b2fde54c7275129ed9f58f7cbb5be1ca0ccb5e8d);
    e := SqUpBy(P, 2, e, 0x8c0f1634d8374d86a38d952f4b190e9be7f363e76149c1cdf118fa7beb5f2a0e, 0x7d3318dafcc0c53439ce3ce430951598beb57956d09d6e7b2ecbad16b6956b0a, 0x9941025ad135e6b0ce240eaf3054d1a38451cec39b553b3a79e77a2917db6962);
    e := SqUpBy(P, 2, e, 0xfa6631b5f9818a68739c79c8612a2b317d6af2ada13adcf65d975a2d6d2ad614, 0x580f4c2c5c036df7cc2ce9ef290eb831376174aa27cb8bcea83a90648a525a3d, 0x1e9d783c623f600d950c1669b88acc8bffc537caf5f0a9fd0856509e39bd40c3f);
    e := SqUpBy(P, 2, e, 0xb01e9858b806dbef9859d3de521d70626ec2e9544f97179d507520c914a4b47a, 0x4797b52c6ea36b0ada970d13f91fe2be29e84415b9aeb98a74103f265ef9b1f5, 0xf2542a4418fc129857a19cb4731aeeec40d21abb5d99b920fb1ca448d1dd5d0b);
    e := SqUpBy(P, 2, e, 0x8f2f6a58dd46d615b52e1a27f23fc57c53d0882b735d7314e8207e4cbdf363ea, 0x17cfa65075ef784725960da3f5c61f2e9cf4298f776b4c67f9bbbd918f62481b, 0xa02c032f0008328ccb4524b074c47a7cb098b88f8bc7bf2742b4e231da6dddcd);
    e := SqUpBy(P, 2, e, 0x2f9f4ca0ebdef08e4b2c1b47eb8c3e5d39e8531eeed698cff3777b231ec49036, 0x19c4a909e8fdfb03e0024bfc48b8413486a939fd277f572878f11709ff2b5a4e, 0x11b7c286bae198ee3e5fa2339402b6f9e17d15901c182eae302495a9102bb6ae);
    e := SqUpBy(P, 2, e, 0x33895213d1fbf607c00497f8917082690d5273fa4efeae50f1e22e13fe56b49c, 0x4a4694562d94f89270d20cccbf78afa831e684eb7c9325a1508ff074a9da99c4, 0x14c000b9b263af85581c6aac566a71bbba7b2e981d33b8870ae077decd8f18fc);
    e := SqUpBy(P, 2, e, 0x948d28ac5b29f124e1a419997ef15f5063cd09d6f9264b42a11fe0e953b53388, 0x5d2bd813e8b0478cd96b70b5990c0179bdcf9fc8fb6f4a87fc2ccdaa867420db, 0xac6709ba3b76771c0769697f078161e0f97517cc1bca9d80baba86c271911659);
    e := SqUpBy(P, 2, e, 0xba57b027d1608f19b2d6e16b321802f37b9f3f91f6de950ff8599b550ce841b6, 0x6df623389cafae36c2dac4097732be7f1c977bcf84172a3c52919e961937946f, 0x10f471406210ecb51ad8b16d910b3738156de68b21762c3cd0280e4fdfe3c4c29);
    e := SqUpBy(P, 2, e, 0xdbec4671395f5c6d85b58812ee657cfe392ef79f082e5478a5233d2c326f28de, 0x5d6266e9896ae5f5458a07bd1c1665bd61853eb5e645de27cb40b0010eb5f38f, 0x179dc352f589a1ad34c946c022f5148b0d1e5cd103a9e3f39cb6acd3c193ef029);
  }

  lemma ChainP_5()
    ensures Cong(Power(2, 0x1ffffffffffffffffffffffffffffffffffffffffffffffffff), 0x9871c6e332a5196c95e2e5ece5202f0e3e487500e26ea89098ad6bb20815282c, P)
  {
    hide Cong, Power;
    ChainP_4();
    var e := 0x1ffffffffffffffffffffffffffffffffffffffff;
    e := SqUpBy(P, 2, e, 0xbac4cdd312d5cbea8b140f7a382ccb7ac30a7d6bcc8bbc4f968160021d6be71e, 0x7d7383b2375827e31ddfe26bae33ec78f1b28f2093b98c86f9447e6322ad4c5d, 0x1108524c5101e7bc70f494f9d45d4dd733a5d4237839ab147f930e1cb1f501ce3);
    e := SqUpBy(P, 2, e, 0xfae707646eb04fc63bbfc4d75c67d8f1e3651e412773190df288fcc6455a98ba, 0x47e4113cd55e683418a5a43ac41d0cb2a7065a7c5ed6d7d3db88fece6a22e7bc, 0x1ebd015dcff4d86e6e4d3115259001b50ca888189a647bdc7ccf68ec6057c8008);
    e := SqUpBy(P, 2, e, 0x8fc82279aabcd068314b4875883a19654e0cb4f8bdadafa7b711fd9cd445cf78, 0x579da26f53ce7114b4f141245cb13fc7c8f3be88b82510fadecd50b6141eae2d, 0xa18265f39efc860e132e407084d2af84063828aa92316b4f4867a9769f6fc1ff);
    e := SqUpBy(P, 2, e, 0xaf3b44dea79ce22969e28248b9627f8f91e77d11704a21f5bd9aa16c283d5c5a, 0x5ee17e762bc39c4e338389e5ae183313cbc5c593d518d2a4190a24cf9bd8dba4, 0xefe42bc274a1946eafad97a3ceecdc373e46d92b14c315c8787283dbb3c54400);
    e := SqUpBy(P, 2, e, 0xbdc2fcec5787389c670713cb5c306627978b8b27aa31a5483214499f37b1b748, 0x27549fcdd34605dd33c7761f4b7f237dbefbc0e5dd40843550629c75ac67196a, 0x11952fbf292a8f218e7bc2a1e73b8a45cf007e2330be06fc427fc6c41fd085f6e);
    e := SqUpBy(P, 2, e, 0x4ea93f9ba68c0bba678eec3e96fe46fb7df781cbba81086aa0c538eb58ce32d4, 0x3ff7c0d3e80df2edc2c560f0646af7e276681d3157b1a395466c1d0fc0df3768, 0x3057254fc99a6d5235db625cc16eb8d6eba190d4766ed86ab83d0891b158d3c8);
    e := SqUpBy(P, 2, e, 0x7fef81a7d01be5db858ac1e0c8d5efc4ecd03a62af63472a8cd83a1f81be6ed0, 0x6feeaf49f81d1dcde5fddf48e82d4a81651b3c93896562bea2bc0908e46b80b0, 0x7fdf056fb2f99fc8933afe003e35c105c63ed343b80401c045aa64b3813f5f90);
    e := SqUpBy(P, 2, e, 0xdfdd5e93f03a3b9bcbfbbe91d05a9502ca36792712cac57d45781211c8d70160, 0x51567bb59df3d344cf03c6ab470f3c5f938680a1564ce81d3db0dcbb76e6769c, 0x18786d46455c66499c0e5c4cac5823d64c10d535595800f153f051497b13e8e74);
    e := SqUpBy(P, 2, e, 0xa2acf76b3be7a6899e078d568e1e78bf270d0142ac99d03a7b61b976edcced38, 0x41b2d0b92e2cbae036b02a122ddd2840657cf3a0ef8df1b5164e2425d83f19ec, 0xcebebc023e13912433ea8ecb19884c2222d03902af6f89b103389a2bdab19924);
    e := SqUpBy(P, 2, e, 0x8365a1725c5975c06d6054245bba5080caf9e741df1be36a2c9c484bb07e33d8, 0xb3f5a86da18965e65b0afcf9161cb4a36d2b22ec6a0032de1ca18fda5d93236, 0x86e25727a922f0b181c071f32588f2789fcbdb233a97f0ca5883645d58907ef2);
    e := SqUpBy(P, 2, e, 0x167eb50db4312cbccb615f9f22c396946da5645d8d40065bc39431fb4bb2646c, 0x3adacb2dd2537c41f4e2599ae65ef0e51a1f71084b09616f8fda8232d57891f4, 0x3f40baa29046b43a3c746d2f3a59d3e1a093a5911269a83523a6ee89e4f5e8c);
    e := SqUpBy(P, 2, e, 0x75b5965ba4a6f883e9c4b335ccbde1ca343ee2109612c2df1fb50465aaf123e8, 0x4f81c389e33e928c5e6423497f0096f65c95a15bc9368c3721151a6e1cf76f40, 0x6c3ef87b74cdf20c4417f5ff15d5255b6ebde25fab8442236264c19b70b0bf00);
    e := SqUpBy(P, 2, e, 0x9f038713c67d2518bcc84692fe012decb92b42b7926d186e422a34dc39eede80, 0x6b476f24033b76bda22770eeaa7afb6c68db64af3d1a5178500bd473112bfca, 0xc58ac3ae0497efc54d5d3f66055e7d006b99dbabe491291af07887c0d3e0de4e);
    e := SqUpBy(P, 2, e, 0xd68ede480676ed7b444ee1dd54f5f6d8d1b6c95e7a34a2f0a017a8e62257f94, 0x122c9e0f6f464e75e3def2fa8c417ac979fcff32a7d6c2abc597fd876a84bad4, 0x167a656b7876e00e6e3c9a6a2d1a9111c2bc3b37a3b310471c4e0890d2a8e2c);
    e := SqUpBy(P, 2, e, 0x24593c1ede8c9cebc7bde5f51882f592f3f9fe654fad85578b2ffb0ed50975a8, 0x6d91d4d4a901dc75d9f3cffc7e5a542e00fb47007afa8efe15be75bfc5275e5, 0xa52700714598be4803389ff3039605f27e0072071bbd16a67b7baad1a20d067);
    e := SqUpBy(P, 2, e, 0xdb23a9a95203b8ebb3e79ff8fcb4a85c01f68e00f5f51dfc2b7ceb7f8a4ebca, 0x40c1bd3183383ff433256e6c822790dfd61694582cf93108484fcee8ef5571cc, 0x1772c127f0e1f935c47327493e3a8d6c345624c6ad3d158befcb80dd2480cf8);
    e := SqUpBy(P, 2, e, 0x81837a6306707fe8664adcd9044f21bfac2d28b059f26210909f9dd1deaae398, 0x7c18c268335954a594b2b3ab10bd7ed42d4ba839b5e2f50cf6ba99da76463e33, 0x830b89bc90b100f8a80c13bc89ca7a8f71aaafcb8dea8965e94417190a6c98a1);
    e := SqUpBy(P, 2, e, 0xf83184d066b2a94b29656756217afda85a9750736bc5ea19ed7533b4ec8c7c66, 0x6dbfee0a600300bda0b6d1c4e8100a415deb1d4a398f602b97c64bc4ffab5a6a, 0x1e13ff5cfc75217eb722b92e8114d1a3c10d443cdbf0c5a12b69212d5edaa8be2);
    e := SqUpBy(P, 2, e, 0xdb7fdc14c006017b416da389d0201482bbd63a94731ec0572f8c9789ff56b4d4, 0x7b249aced3f6f87917f182f594b267c529b2f60f18965e52cea28ebe08379b5b, 0x1786804cf34a8f06e7b832d5355ef0cf1bab788c34198a53b2327d889c600ac69);
    e := SqUpBy(P, 2, e, 0xf649359da7edf0f22fe305eb2964cf8a5365ec1e312cbca59d451d7c106f36b6, 0x20e887d899fee0f9092b2add859a22d92987e2ac199a2c4b8ab949a5e5e5019c, 0x1d9e18ff53bc372c997db7a801c83add576e56e861b197583c5f842da08dc9de8);
    e := SqUpBy(P, 2, e, 0x41d10fb133fdc1f2125655bb0b3445b2530fc558333458971572934bcbca0338, 0x7376dd52c6951c482d43aecf9841cbb5e0ae991b3aea9156da242e27f98f28f, 0x21d7a9653967ff288d82dc679e79b01d9b8c7e2518c64b44a62ebd734b893055);
    e := SqUpBy(P, 2, e, 0xe6edbaa58d2a38905a875d9f3083976bc15d323675d522adb4485c4ff31e51e, 0xe358ef3eb49530eecf51dd963fad7ef873f8796a090e6b4c848487fbb48b995, 0x1a0a01049308874017cd22388d41927fa072120bbb51eb72a2ef056211779cb);
    e := SqUpBy(P, 2, e, 0x1c6b1de7d692a61dd9ea3bb2c7f5afdf0e7f0f2d4121cd69909090ff7691732a, 0x1a8e55da8a73ced457a1f914cfcec2bbb7f0ba8e4e894605dc4ee641e1b39de1, 0x64f36b9747796ff1d86ebae4f3411bc6629fdfa89f30f29434e69406511baaf);
    e := SqUpBy(P, 2, e, 0x351cabb514e79da8af43f2299f9d85776fe1751c9d128c0bb89dcc83c3673bc2, 0x28e911f30d6275b4cc6cbb8ee39609bf3b8ddfd3103361b49e80de257b96f818, 0x1609c49dfadfc7eca6a38bfe2762dccc578349a552409df61fb60134fd3d0d1c);
    e := SqUpBy(P, 2, e, 0x51d223e61ac4eb6998d9771dc72c137e771bbfa62066c3693d01bc4af72df030, 0x2d4c1286caa2440511e9352ee96adc6bbe1ec5b2b50969c19c2b20911c58770b, 0x344d4e6d0efa846201f5b5fa4ee433f8c78fb8af0b11bfec9bac6d012aa34929);
    e := SqUpBy(P, 2, e, 0x5a98250d9544880a23d26a5dd2d5b8d77c3d8b656a12d3833856412238b0ee16, 0x21abf6a549285a3834ace3d2fbc30e01ece04492a2e15f0c20d39665198c0813, 0x401ea8f324e4bdcdf918297e324e9c98a03bbdf4570bc401c48139cb89fe44f5);
    e := SqUpBy(P, 2, e, 0x4357ed4a9250b4706959c7a5f7861c03d9c0892545c2be1841a72cca33181026, 0x7567b81f7b7811c240324d7df7cedeac9f9cb6c90496be07389fb8819ff636b1, 0x236e48d05a71b3dfa7da69aa67135ad6517544c98185b328f1553033c2ba2e5f);
    e := SqUpBy(P, 2, e, 0xeacf703ef6f0238480649afbef9dbd593f396d92092d7c0e713f71033fec6d62, 0x1ac9b941b6c3b6c6788ee56a188a82fc8a31ffbf1bb0194508efedea48d4fa96, 0x1aebfc293a4f301aca92e302563e1f240ced1e67e6c64e701f7ed9cb4f52070e6);
    e := SqUpBy(P, 2, e, 0x359372836d876d8cf11dcad4311505f91463ff7e3760328a11dfdbd491a9f52c, 0x313d47d7f083e1f229d737453431b1e616ba1af9c272809d7f44813f859271bb, 0x166cc4ae43065bd42176fc3db001451f16a82c696635c02596402aefe5d33889);
    e := SqUpBy(P, 2, e, 0x627a8fafe107c3e453ae6e8a686363cc2d7435f384e5013afe89027f0b24e376, 0x3b7ed98351581d4c5b18dab4ff85334398ed5afea4e09f8ef2859d810d1717db, 0x4bc4215fd924c73b41edba3c86985beee09f2deb856df63624663480d991818d);
    e := SqUpBy(P, 2, e, 0x76fdb306a2b03a98b631b569ff0a668731dab5fd49c13f1de50b3b021a2e2fb6, 0x2370a2188e2a2c1b1860985d336a328e8b74f06dbd48c75cf3db8a243be320cc, 0x6e9db8eaec949c0e26cb85d47d42d09d88f41a7171e9074d07338d5487df83f8);
    e := SqUpBy(P, 2, e, 0x46e144311c54583630c130ba66d4651d16e9e0db7a918eb9e7b7144877c64198, 0x788041627df75763b4581c7a4a5bad5c220ed56cc672e85f34c49d3c59ae15df, 0x273fef0797f819f2b868eff180b84a200b980495abdf6c66deedcacd06d42fc5);
    e := SqUpBy(P, 2, e, 0xf10082c4fbeeaec768b038f494b75ab8441daad98ce5d0be69893a78b35c2bbe, 0x35e50d03b5cf1898cf2ede7a73343202b20a326962800938a0ff7577d0247b7a, 0x1c5c3ec6e4a481909340fb858822976b3bb7d53a73135fe2158327043310ee672);
    e := SqUpBy(P, 2, e, 0x6bca1a076b9e31319e5dbcf4e6686405641464d2c500127141feeaefa048f6f4, 0x280c007aa4496aad6671a6569f50f669a5686c9d0a33c95c4249f87bc3be8bd1, 0x5ac5229e94a329b09d255749b75da8e806924e285e8e2dd00343f97134db31db);
    e := SqUpBy(P, 2, e, 0x501800f54892d55acce34cad3ea1ecd34ad0d93a146792b88493f0f7877d17a2, 0x6acf11067f76caac09fed42a135660ad33417e454720ba6e3a4dbd27f7c68a4c, 0x321e05b2f6b497c97d678d23e6a6fb0c651742a3c4e77d9624fdf5650048a218);
    e := SqUpBy(P, 2, e, 0xd59e220cfeed955813fda85426acc15a6682fc8a8e4174dc749b7a4fef8d1498, 0x3246332d9aba4613c2e4fdd99e6c929baf7026ba422fd1491e7184bbb76e2a80, 0x164810caf5992f851d394fb436932b8d8985cc4c4d507138a1e2f6e906ea636c0);
    e := SqUpBy(P, 2, e, 0x648c665b35748c2785c9fbb33cd925375ee04d74845fa2923ce309776edc5500, 0x2fb2839104f7cc4b8667d75b401d61252730ce31834062cc10bdcfa91f18590b, 0x4efbf9eebce4a8202ee976ba276434631235be242d10a0c5fa4fb893f16a1229);
    e := SqUpBy(P, 2, e, 0x5f65072209ef98970ccfaeb6803ac24a4e619c630680c598217b9f523e30b216, 0x377e38a1027a356cea34fb6bac276e04e852251fef24fbf67e962709a5e9857c, 0x47184653c8dd16c0822386adeb92d8eb0bdcf5d6704395211f0c7acfc668c908);
    e := SqUpBy(P, 2, e, 0x6efc714204f46ad9d469f6d7584edc09d0a44a3fde49f7ecfd2c4e134bd30af8, 0x63847e8ea4d12074023e6534715c816ca943486ad9852a574c77840871ec03bd, 0x603bd487d0ae4cd7c7b2669189c0b49f3636b537122f05897e90cfd50e23902f);
    e := SqUpBy(P, 2, e, 0xc708fd1d49a240e8047cca68e2b902d9528690d5b30a54ae98ef0810e3d8077a, 0x4c38e37199528cb64af172f6729017871f243a80713754484c56b5d9040a9416, 0x1357df3a8a92383e27b6b0f8bd8194f933de4f0ade02529849003dbf30dff4c86);
  }

  lemma ChainP_6()
    ensures Cong(Power(2, 0x1ffffffffffffffffffffffffffffffffffffffffffffffffffffffffffff), 0x5305614711bd445a0662d9534326de5c2d2e1a19210bd48a1981f8077e7f86e8, P)
  {
    hide Cong, Power;
    ChainP_5();
    var e := 0x1ffffffffffffffffffffffffffffffffffffffffffffffffff;
    e := SqUpBy(P, 2, e, 0x9871c6e332a5196c95e2e5ece5202f0e3e487500e26ea89098ad6bb20815282c, 0x617201b0c492fb38b5b102c5fb2fab5d2e1285a5fd4e19f30308b8015004e32, 0xb58e9d7df675ffd743fb745a94a5dcf142c53b867b5ddf6f3f8cfa369dde0716);
    e := SqUpBy(P, 2, e, 0xc2e403618925f6716b62058bf65f56ba5c250b4bfa9c33e606117002a009c64, 0x6b503b8c59fe98c95640105dea5aa7a6f9cbebcf78b05210aad6d0727d2d388e, 0x128bcc06bb34a8705f999d1c07c2dec0348913434f8272cca51b7d954eda44a);
    e := SqUpBy(P, 2, e, 0xd6a07718b3fd3192ac8020bbd4b54f4df397d79ef160a42155ada0e4fa5a711c, 0x62992220c2aac985c76f6851a46635e92f53263e34256c372f6f820c323f0a38, 0x167e15764c6688a2da3b319011736c697101aacde11cae4348397e8984dece938);
    e := SqUpBy(P, 2, e, 0xc53244418555930b8eded0a348cc6bd25ea64c7c684ad86e5edf0418647e1470, 0x51b484dfe8fcd8d9b100fdfbf96ad994b9efd07bf9b8f831ecd5f2960d7abf89, 0x12fcccdd7260152af56d7269d6cccd57a4aff25314340506952a1778dcfdfa273);
    e := SqUpBy(P, 2, e, 0xa36909bfd1f9b1b36201fbf7f2d5b32973dfa0f7f371f063d9abe52c1af57f12, 0x4797649968bcba445a7beb2cad01e8cc86a856dd58e57668c4ccb78fabbf648a, 0xd09ddb068a3a87398288b581c74862063134504b016d03db28894401def58062);
    e := SqUpBy(P, 2, e, 0x8f2ec932d1797488b4f7d6595a03d1990d50adbab1caecd189996f1f577ec914, 0x42e68ae487132dde54fa3d0c86228ef3efa3b371e6df023be1c76ff7ca6d82b9, 0xa02a9aa764d39dbba64b4c069fb12622bee946fe09e7dc0ed5d61a9d239f0153);
    e := SqUpBy(P, 2, e, 0x85cd15c90e265bbca9f47a190c451de7df4766e3cdbe0477c38edfef94db0572, 0x5e2a9d57c2362a4a3114819a037995db243259e025699ed77113ac0ded76e634, 0x8bdd79dd9d1e3df4f1a2e4ad208c59d49493a7fa87ae9328e35919de840410d0);
    e := SqUpBy(P, 2, e, 0xbc553aaf846c54946229033406f32bb64864b3c04ad33daee227581bdaedcc68, 0x1b646abff2ce7ada8098c49df7faf8cd128849ef37a1c6c73b4edf336accc743, 0x1151a9523a1021903034860b3a54d1c96b7bc7dc97a1d30c35d5a561e385ead51);
    e := SqUpBy(P, 2, e, 0x36c8d57fe59cf5b50131893beff5f19a251093de6f438d8e769dbe66d5998e86, 0x30b87e29091415ffbdfc4cb0cabe3a84f78693508c170cdc11794b52c804679e, 0x1772af407d8621ca2fbfe16311ed424bbf439733ab936b5fa00d0c7cd94a13de);
    e := SqUpBy(P, 2, e, 0x6170fc5212282bff7bf89961957c7509ef0d26a1182e19b822f296a59008cf3c, 0x3f18ee6f544218cae49bb11418d94a7796be929043ff0c852c797e6945c1867a, 0x4a2da227e4880519aa476bf96d76089034aa211b9cb41f82be4e01c50fb27f2e);
    e := SqUpBy(P, 2, e, 0x7e31dcdea8843195c937622831b294ef2d7d252087fe190a58f2fcd28b830cf4, 0x36554b48cd3c99a9632fb20995332d0c439181c030a0cce87043d4d4a44ad90, 0x7c6a3e42f35c2d6cadad85962a7a096d39da9a10c6c2555429bee59200d62700);
    e := SqUpBy(P, 2, e, 0x6caa96919a793352c65f64132a665a1887230380614199d0e087a9a94895b20, 0x12f3ab4374e82c5a22337d4ed4fb921bc8d14ec80fa92f3fd2bb27b8becf95f5, 0x5c40c16e588cc038c7ee44fd7789bf775be8fc8d91022223eaf1607a6d76d7);
    e := SqUpBy(P, 2, e, 0x25e75686e9d058b44466fa9da9f7243791a29d901f525e7fa5764f717d9f2bea, 0x437fea63bb1592f4029509c6c6ea62b5250b5a614964871b5bc7b7166a0c9338, 0xb396020889e37ab90b837fe201302796cd9af662cbdf0ef18fd3f4c3a33cbdc);
    e := SqUpBy(P, 2, e, 0x86ffd4c7762b25e8052a138d8dd4c56a4a16b4c292c90e36b78f6e2cd4192670, 0x3ca61177401132a72c7ab837450265fdf4ef1254c23546b4c4341b66c133869f, 0x8e61a4d4cbdb19899c16b79105331ef01aca4e46d85b706f9ad3359e9080bdc5);
    e := SqUpBy(P, 2, e, 0x794c22ee8022654e58f5706e8a04cbfbe9de24a9846a8d69886836cd82670d3e, 0x2a312432273a502dfa9b245b51438e7966f9bbc9b0382e92f5f570dbcdbd9102, 0x72f21f546f01a0d7b338da7e8861c3571ca7ce6c7e3c89e40a071e5953381dca);
    e := SqUpBy(P, 2, e, 0x546248644e74a05bf53648b6a2871cf2cdf3779360705d25ebeae1b79b7b2204, 0x6d00385dedd762a861a6b9907a1779df49f4f114ac60c6a08ce7ab856e938bd2, 0x37a14a7aa9825bec395f4bcec6060b338b9e6c622856d0784247c5a6e37c2176);
    e := SqUpBy(P, 2, e, 0xda0070bbdbaec550c34d7320f42ef3be93e9e22958c18d4119cf570add2717a4, 0xcc3dd43145da45d63207454354a3ad35b63ac41c412303d293878c5fd054fd7, 0x173498000479524424e3ea7bc6f90ca8241ea6a3c35ec4ef72c847460aa0bb4fd);
    e := SqUpBy(P, 2, e, 0x1987ba8628bb48bac640e8a86a9475a6b6c758838824607a5270f18bfa0a9fae, 0xa1b46b1057cf0375392c556967a9964bd0c0f9dcf2dccbfe1252b674e83b176, 0x51794c8eab58673ffe0c283afea6c1f5bf908b4337659ca103c7ebe73dbe646);
    e := SqUpBy(P, 2, e, 0x14368d620af9e06ea7258aad2cf532c97a181f3b9e5b997fc24a56ce9d0762ec, 0x4565d6d948532f9d241a5f70d54ee9ba59c3626eb7d2c71f3565cc06d8a9d76d, 0x331236e8a51a43f439d278fc9504360fc71e5644358cb4a39981a8fba2f984f);
    e := SqUpBy(P, 2, e, 0x8acbadb290a65f3a4834bee1aa9dd374b386c4dd6fa58e3e6acb980db153aeda, 0x1a5811bac17e196dc2b3112f2809b77260b0e5e7ec49427ff1b49c9e1f36ca96, 0x968072a2e5ff3528642856addad4f5663ce4a1338592a0bdbff29647e2a77586);
    e := SqUpBy(P, 2, e, 0x34b0237582fc32db8566225e50136ee4c161cbcfd89284ffe369393c3e6d952c, 0x3eb1591788290a2070209fb68b47d181cd179dc242cb0fad7495c4fd63f65427, 0x15b00f310767ce621ef91345197818698bbfb675aa6587c4c93c43389dc451ed);
    e := SqUpBy(P, 2, e, 0x7d62b22f10521440e0413f6d168fa3039a2f3b8485961f5ae92b89fac7eca84e, 0x57906685b0d47ceafaa249f78d4df9ab9348fa229bbb46e01ca68d4ed28528b7, 0x7ad3101dbbfc43f00006dcd685d11b9b6ce4e8381efaeec38978a94a76bd67a1);
    e := SqUpBy(P, 2, e, 0xaf20cd0b61a8f9d5f54493ef1a9bf3572691f44537768dc0394d1a9da50a516e, 0x1b33158c9ad75d176ce52049514e54757b193250ef3c5efb4104c0c75b950f0c, 0xef9bb912ed315576497166eb96f6a1cdb908d7f4dda932e3dc2bcd2ecb6cf618);
    e := SqUpBy(P, 2, e, 0x36662b1935aeba2ed9ca4092a29ca8eaf63264a1de78bdf68209818eb72a1e18, 0x7a3ec5dce3f94918496b63aa653b4d3f7f67c4594849c09fceaed9cd84e4eb0d, 0x171e85ea03fbf098b6499625a3d6ec2f01d028ba19ef8ff00fa0366155216f9f);
    e := SqUpBy(P, 2, e, 0xf47d8bb9c7f2923092d6c754ca769a7efecf88b29093813f9d5db39b09c9d61a, 0x4da12b7326666ad3235f28b239ec52947ec58605c234f0d21870fa537e0dda86, 0x1d2ff1fd7c9addf06bdb7c103fa79e6d2e04bf471b273800ff9c173164d9670d6);
    e := SqUpBy(P, 2, e, 0x9b4256e64cccd5a646be516473d8a528fd8b0c0b8469e1a430e1f4a6fc1bb50c, 0x402f9eb9d889c15df9de0ca8024c720ea41bda7bb2624fabf512345a01ce7a42, 0xbc52ccd79a7e5e3a7419a3810c1b5ed0ce34115aa87827e7b581ffa6751e21c6);
    e := SqUpBy(P, 2, e, 0x805f3d73b11382bbf3bc19500498e41d4837b4f764c49f57ea2468b4039cf484, 0x34d2f91f8d0224d8d1c8e66b07cab6d498383f99bc7b601e169988682eefb7f0, 0x80bec1c4b7628bc5b3180467fd7dc84205a66201295cc375a70df79f45b618a0);
    e := SqUpBy(P, 2, e, 0x69a5f23f1a0449b1a391ccd60f956da930707f3378f6c03c2d3310d05ddf6fe0, 0x558f345e66c3806d6e214515001deb84e6e207b07f126731920102dc72301dec, 0x57331893dbd4d571467ee3648b7b6c39eb0377df1ff11ef9596f5258665ef3e4);
    e := SqUpBy(P, 2, e, 0xab1e68bccd8700dadc428a2a003bd709cdc40f60fe24ce63240205b8e4603bd8, 0x1299c97e536c81c3fe5e053933a38c7cd4819dbb1a08abe6c76a21818e4cc402, 0xe4c34711e358f20993122e4cf7794f7ea29b8fc6a2475600a50888390bb35776);
    e := SqUpBy(P, 2, e, 0x253392fca6d90387fcbc0a72674718f9a9033b76341157cd8ed443031c998804, 0x24229c584492c33fc1989bb898e5bb774a5525d8583eb086bc5b52fe4eb6eff6, 0xacfe5c1da94ba4a4e828cf943d31e271d83e6ef2842ba1a0d24f3d880ee0942);
    e := SqUpBy(P, 2, e, 0x484538b08925867f8331377131cb76ee94aa4bb0b07d610d78b6a5fc9d6ddfec, 0x69af41f5f818175cac75adebc0eb2457cdea16cbb8f8dfc9c6b436e43a6bbf48, 0x28ce0535d1b97f3f04e49fcc39cac4dbdc4dd86ebd1e5bf8a42d537f62813268);
    e := SqUpBy(P, 2, e, 0xd35e83ebf0302eb958eb5bd781d648af9bd42d9771f1bf938d686dc874d77e90, 0x42465ee77427e29d62f2f64a9d6eaad92bf58f9705842cfebed19217a5ac7a4a, 0x15d09e0b8265e435804a64067ce4b10aa8be95e52edf7dbedd7af38793a2b7ece);
    e := SqUpBy(P, 2, e, 0x848cbdcee84fc53ac5e5ec953add55b257eb1f2e0b0859fd7da3242f4b58f494, 0x166244237a27cc0883c76a7ab31842b920b2b00b120f4ca9b0835b50d7d58715, 0x8942e23b0d3709c9a190e12cfc683ca7a91bddd900000af39348fbb951b4cb07);
    e := SqUpBy(P, 2, e, 0x2cc48846f44f9811078ed4f56630857241656016241e99536106b6a1afab0e2a, 0x2f0f72b4e3782bcae78779d304358d67816b2c7291c2907286f7ea8bab295e43, 0xfa84b72b259dacb95db7fc4050b0a53cc2f7babddd894736388e600c0f62505);
    e := SqUpBy(P, 2, e, 0x5e1ee569c6f05795cf0ef3a6086b1acf02d658e5238520e50defd5175652bc86, 0x602229a1a4d1e02443dedb3b9d5b16b89c1997beef97e11c419ea80a6df572c, 0x4535686880f3148aa73c11c76cd422c2b27b15301f8503d69f9704e554f52bd8);
    e := SqUpBy(P, 2, e, 0xc044534349a3c04887bdb6773ab62d7138332f7ddf2fc238833d5014dbeae58, 0x657455b035a2c3b6c92b3e5e085564787fcbfd0c3034a050e82644257abcad93, 0x120cd1e428a92e5b5837251bf46766a78c9f33c6c1c42d2ff26a47339c1bbc1);
    e := SqUpBy(P, 2, e, 0xcae8ab606b45876d92567cbc10aac8f0ff97fa18606940a1d04c884af5795b26, 0x788392c4a6992ccbb01d2b7784cc64e6a42d5b714a9fc85686e7587782409e95, 0x141a803d6758c36bbcb1dbec0176ce83599bdb3364b03a7c4c886254a2ef0df6b);
    e := SqUpBy(P, 2, e, 0xf10725894d325997603a56ef0998c9cd485ab6e2953f90ad0dceb0ef04813d2a, 0x6fc69f341ced3bba44c3236d5c3c61a45b34f24db4acd09a28685d04faf89670, 0x1c5dce9bf2cb7fec85d0c2901b62b40ddebd0a055e152436204988849506c2fc4);
    e := SqUpBy(P, 2, e, 0xdf8d3e6839da7774898646dab878c348b669e49b6959a13450d0ba09f5f12ce0, 0x3c4a4cb59857a5e771ca17f575bc3163d3686ed7e1e1dd9a67a3a4c73f3720ae, 0x1866ec14ec5a1fa72fccfe492e2655aec0167a1f5b730af6a1860eb784308125a);
    e := SqUpBy(P, 2, e, 0x7894996b30af4bcee3942feaeb7862c7a6d0ddafc3c3bb34cf47498e7e6e415c, 0x2982b0a388dea22d03316ca9a1936f2e16970d0c9085ea450cc0fc03bf3fc374, 0x71974c2c7b0bdda9c1f5df66a85b2583389bc81f5f56f1d2744cb30f353ca08c);
  }

  /** Fermat's condition for P. */
  lemma ChainP()
    ensures Cong(Power(2, P - 1), 1, P)
  {
    hide Cong, Power;
    ChainP_6();
    var e := 0x1ffffffffffffffffffffffffffffffffffffffffffffffffffffffffffff;
    e := SqUpBy(P, 2, e, 0x5305614711bd445a0662d9534326de5c2d2e1a19210bd48a1981f8077e7f86e8, 0x44347832c85efe349ecf2899e56785af1e2d5373467777abd99e2ab6cc9e82ef, 0x35d8fa620e7cb5c6a3565521c4aff54c3be1fb2d856c4170b3a0ebe103f71875);
    e := SqUpBy(P, 2, e, 0x8868f06590bdfc693d9e5133cacf0b5e3c5aa6e68ceeef57b33c556d993d05de, 0x43bc989559ae4aa61a38e31b7d4cf9786d709a1ec9ab42d1d4e28fb3daa8043, 0x915f54e03c1c1c794ffe1ce314a8ce421d299ec3ee46444e14b7fc8bcb3fcb25);
    e := SqUpBy(P, 2, e, 0x8779312ab35c954c3471c636fa99f2f0dae1343d935685a3a9c51f67b550086, 0x13e2681209645a1d93328597b67ca937ded433154d536ed70e8f49ecf5698b13, 0x8f62167519f525889518abe8ad57e4dba217b9496d71f83ea3829d33cfdb35);
    e := SqUpBy(P, 2, e, 0x27c4d02412c8b43b26650b2f6cf9526fbda8662a9aa6ddae1d1e93d9ead31626, 0x618c63b601a93faa0c06c171596269c20390689c509252be7c1ed251b1a93bb9, 0xc5b1d74bc611bb2ddf273b5fe40f4da10eba4275c3bc6cfb380442d31f3ee37);
    e := SqUpBy(P, 2, e, 0xc318c76c03527f54180d82e2b2c4d3840720d138a124a57cf83da4a363527772, 0x112613372f31733446e71de8ee04c2debeb6b67245f56cb93dc0f69dc56e449c, 0x1295d84691952d05e18089bb1fb010b1bfddf1ba1989fadca6dd55d14268fbdc8);
    e := SqUpBy(P, 2, e, 0x224c266e5e62e6688dce3bd1dc0985bd7d6d6ce48bead9727b81ed3b8adc8938, 0x643e10cffdab818f10c837c9bd2b5683938047cd6e9749cebc345f5915fa6b24, 0x930a1b850be870e5fe19b68b335e45f5b296ad12926e4ad35d3d69c73969a0c);
    e := SqUpBy(P, 2, e, 0xc87c219ffb57031e21906f937a56ad0727008f9add2e939d7868beb22bf4d648, 0x5c64b5f1a9d129464ebb85225df8fa4d51beee4b9d7967c46ba2f69f0f145c05, 0x13a046175203c27e16a93280f5114a8b6d24d6f878245c5cf4679c94816dde3c7);
    e := SqUpBy(P, 2, e, 0xb8c96be353a2528c9d770a44bbf1f49aa37ddc973af2cf88d745ed3e1e28b80a, 0x5ca4886f998c3e189afc76ce4717ce525af1a32abb9a39eefe16caff0326b20d, 0x10ac45322c154faadc2b9fa4ae8faf400cbd3f0086f769ece5dedfa223e82f6d3);
    e := SqUpBy(P, 2, e, 0xb94910df33187c3135f8ed9c8e2f9ca4b5e34655773473ddfc2d95fe064d641a, 0x3fc649d6885ab12c6aafed777f3031a05157593fe604f9a57a4af05adf27811e, 0x10c355e7a708260e624e7af641e4ce655b06df4d513b34a5f4a2711b839b42ade);
    e := SqBy(P, 2, e, 0x7f8c93ad10b56258d55fdaeefe606340a2aeb27fcc09f34af495e0b5be4f023c, 0x32c3972e911d2f7bb05f4b8c6db60e0038687a672696cc25eecf94076fb5c22b, 0x7f198f6f221ce84f341d33f8c1b0244edaf714b32277856e0069e5a835d2fcd9);
    e := SqUpBy(P, 2, e, 0x32c3972e911d2f7bb05f4b8c6db60e0038687a672696cc25eecf94076fb5c22b, 0x6ae0c92013f077c2cad340264f7ef5e9cbd0c601ab4bf91e313b86c9d283a81e, 0x1421f8fbb5d0e1571c2df0a3519340cf8278ea947722be04912f2950f7d00627);
    e := SqUpBy(P, 2, e, 0xd5c1924027e0ef8595a6804c9efdebd397a18c035697f23c62770d93a507503c, 0x15c1924027e0ef8595a6804c9efdebd397a18c035697f23c62770d93a5075058, 0x164f75f79354b5a9bf4aa4d50de56451ccfc7df522204d178d9e1b45ec79c4d98);
    e := SqBy(P, 2, e, 0x2b8324804fc1df0b2b4d00993dfbd7a72f431806ad2fe478c4ee1b274a0ea0b0, 0x7fffffffffffffffffffffffffffffffffffffffffffffffffffffffffffffec, 0xecaa2e2f6a2302ccedb31ac05720688238ced2078f3eb0ec9f22e8f621972e4);
    e := SqBy(P, 2, e, 0x7fffffffffffffffffffffffffffffffffffffffffffffffffffffffffffffec, 1, 0x7fffffffffffffffffffffffffffffffffffffffffffffffffffffffffffffeb);
  }

  /** The witness of Q for P. */
  lemma ChainP_Q()
    ensures Cong(Power(2, 0xbedc4), 0xf1ba0c491eeef83c49fc1b744331bb096d4893142c187431f7b03e61a75a49, P)
  {
    hide Cong, Power;
    Start(2, P);
    var e := 1;
    e := SqBy(P, 2, e, 2, 4, 0x0);
    e := SqUpBy(P, 2, e, 4, 0x10, 0x0);
    e := SqUpBy(P, 2, e, 0x20, 0x400, 0x0);
    e := SqUpBy(P, 2, e, 0x800, 0x400000, 0x0);
    e := SqUpBy(P, 2, e, 0x800000, 0x400000000000, 0x0);
    e := SqUpBy(P, 2, e, 0x800000000000, 0x400000000000000000000000, 0x0);
    e := SqBy(P, 2, e, 0x800000000000000000000000, 0x400000000000000000000000000000000000000000000000, 0x0);
    e := SqUpBy(P, 2, e, 0x400000000000000000000000000000000000000000000000, 0x260000000000000000000000000000000, 0x20000000000000000000000000000000);
    e := SqUpBy(P, 2, e, 0x4c0000000000000000000000000000000, 0x1000000000000000000000000000000000000000000000000000000000000357, 0x2d);
    e := SqBy(P, 2, e, 0x20000000000000000000000000000000000000000000000000000000000006ae, 0x18000000000000000000000000000000000000000000000000000000002cddcc, 0x800000000000000000000000000000000000000000000000000000000000358);
    e := SqUpBy(P, 2, e, 0x18000000000000000000000000000000000000000000000000000000002cddcc, 0x158000000000000000000000000000000000000000000000000007dcff8986e7, 0x48000000000000000000000000000000000000000000000000000000010d32d);
    e := SqUpBy(P, 2, e, 0x2b000000000000000000000000000000000000000000000000000fb9ff130dce, 0x467600000000000000000000000000000000000000f75306e34fd769cd81ce1c, 0xe720000000000000000000000000000000000000000000000000a90f760cd48);
    e := SqUpBy(P, 2, e, 0x8cec00000000000000000000000000000000000001eea60dc69faed39b039c38, 0x4b110b60000000000003bbc548e06e9b95b7d67f9bf52d633035e98c7d0707b3, 0x9b25f3200000000000000000000000000000000004412b427549bb438f638321);
    e := SqBy(P, 2, e, 0x962216c0000000000007778a91c0dd372b6facff37ea5ac6606bd318fa0e0f66, 0x6eb9ef646ded500ec360dc97d3aba66fad01335ae230f0694f551ed107e18b80, 0xb017ee661a0b200000118426eeb7b6be61bf6daa47ede03f34d4e00b5ffd4934);
    e := SqBy(P, 2, e, 0x6eb9ef646ded500ec360dc97d3aba66fad01335ae230f0694f551ed107e18b80, 0x1d804e3bfbc1c5189c61a656cc00905d55b7f22ae1771e1690048c93d6e78b58, 0x5fc8a18c5af6fce322a75c25674d7a3d3bcae29dd3c3663f2b0ae07c70346248);
    e := SqBy(P, 2, e, 0x1d804e3bfbc1c5189c61a656cc00905d55b7f22ae1771e1690048c93d6e78b58, 0x4029dd07f147e9f9cf214b626c20bb9c254fc9c7d0b5bdf5cd1e706290bb9f73, 0x6cca40fd5dc87c98617ca4541cbb81dc37ae4751fd5ae3b678f616ae0a2ae61);
    e := SqUpBy(P, 2, e, 0x4029dd07f147e9f9cf214b626c20bb9c254fc9c7d0b5bdf5cd1e706290bb9f73, 0x7885ed394c4b32f12d97c8e9365e2ea558573a755e6b5669788b25500dd398b, 0x2029eab9080be9b631cb28c043eea325d447f2a8072efeb3e18ea6cf6fc3f4d6);
    e := SqBy(P, 2, e, 0xf10bda72989665e25b2f91d26cbc5d4ab0ae74eabcd6acd2f1164aa01ba7316, 0x587b5882c7860235e1b4dd1a0040c4dbf4f21b56ccb70c2cb5a409f25a97a63c, 0x1c5eea3b087174fdaaf1d31c69b3ffae371f2d3d732c43171024394abbb1948);
    e := SqBy(P, 2, e, 0x587b5882c7860235e1b4dd1a0040c4dbf4f21b56ccb70c2cb5a409f25a97a63c, 0xf1ba0c491eeef83c49fc1b744331bb096d4893142c187431f7b03e61a75a49, 0x3d2a10902ae4108d18284694005f203a3faea49b6b8fc874a5b7b1e63ee41403);
  }

  /** The integers modulo P are a field. */
  lemma PrimeP()
    ensures Prime(P)
  {
    hide Cong, Power, Prime, Witness;
    PrimeQ();
    ChainP(); ChainP_Q();
    MakeWitness(P, Q, 2, 0xbedc4, 0xf1ba0c491eeef83c49fc1b744331bb096d4893142c187431f7b03e61a75a49, 0x7acaff384090e983b641a51e1df0807078e467d06ab8164555f0f7fd51653bdc);
    Pocklington(P, Q, 0xf1ba0c491eeef83c49fc1b744331bb096d4893142c187431f7b03e61a75a49);
  }
}
