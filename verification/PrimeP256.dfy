/** The prime of secp256r1 is prime: witnesses for Pocklington's criterion, down to primes that
    are found by trial division. */
module PrimeP256 {
  import opened Arith
  import opened EccDigits
  import opened EccP256
  import opened Primes
  import opened PowerChain

  const Y: int := 0xabefb
  const X: int := 0xc29ba0f
  const W: int := 0x7fb6219d9
  const V: int := 0xa3b2bf8c32ceaf
  const U: int := 0x22b559b5c816ae00f2378e18df38c5410ed597
  const Q: int := 0x926d1276e41fae13fdda5f78edb7802a76951509

  // ---------------------------------------------------------------- small primes

  lemma Prime5()
    ensures Prime(5)
  {
    hide NoneBelow;
    NoneYet(5);
    NextOne(5, 2);
    SmallPrime(5, 2, 3);
  }

  lemma Prime107()
    ensures Prime(107)
  {
    hide NoneBelow;
    NoneYet(107);
    Next8(107, 2); Next8(107, 10);
    SmallPrime(107, 10, 18);
  }

  lemma Prime313()
    ensures Prime(313)
  {
    hide NoneBelow;
    NoneYet(313);
    Next8(313, 2); Next8(313, 10);
    SmallPrime(313, 17, 18);
  }

  lemma Prime3769()
    ensures Prime(3769)
  {
    hide NoneBelow;
    NoneYet(3769);
    Next8(3769, 2); Next8(3769, 10); Next8(3769, 18); Next8(3769, 26);
    Next8(3769, 34); Next8(3769, 42); Next8(3769, 50); Next8(3769, 58);
    SmallPrime(3769, 61, 66);
  }

  lemma None18169()
    ensures NoneBelow(18169, 66)
  {
    hide NoneBelow;
    NoneYet(18169);
    Next8(18169, 2); Next8(18169, 10); Next8(18169, 18); Next8(18169, 26);
    Next8(18169, 34); Next8(18169, 42); Next8(18169, 50); Next8(18169, 58);
  }

  lemma Prime18169()
    ensures Prime(18169)
  {
    hide NoneBelow;
    None18169();
    Next8(18169, 66); Next8(18169, 74); Next8(18169, 82); Next8(18169, 90);
    Next8(18169, 98); Next8(18169, 106); Next8(18169, 114); Next8(18169, 122);
    Next8(18169, 130);
    SmallPrime(18169, 134, 138);
  }

  // ---------------------------------------------------------------- Y

  /** Fermat's condition for Y. */
  lemma ChainY()
    ensures Cong(Power(2, Y - 1), 1, Y)
  {
    hide Cong, Power;
    Start(2, Y);
    var e := 1;
    e := SqBy(Y, 2, e, 2, 4, 0);
    e := SqUpBy(Y, 2, e, 4, 0x10, 0);
    e := SqBy(Y, 2, e, 0x20, 0x400, 0);
    e := SqUpBy(Y, 2, e, 0x400, 0x54105, 1);
    e := SqBy(Y, 2, e, 0xa820a, 0x67a9e, 0xa4672);
    e := SqUpBy(Y, 2, e, 0x67a9e, 0x9038e, 0x3e802);
    e := SqUpBy(Y, 2, e, 0x12071c, 0x4ad22, 0x1e3e6a);
    e := SqUpBy(Y, 2, e, 0x95a44, 0x1e316, 0x823ce);
    e := SqUpBy(Y, 2, e, 0x3c62c, 0x30c34, 0x15354);
    e := SqUpBy(Y, 2, e, 0x61868, 0x2cab3, 0x37517);
    e := SqBy(Y, 2, e, 0x59566, 0x75b2d, 0x2e6b5);
    e := SqUpBy(Y, 2, e, 0x75b2d, 0x41284, 0x5091f);
    e := SqUpBy(Y, 2, e, 0x82508, 0x38b7, 0x62c4b);
    e := SqUpBy(Y, 2, e, 0x716e, 0x34fa5, 0x4ad);
    e := SqUpBy(Y, 2, e, 0x69f4a, 0x420fc, 0x414b8);
    e := SqUpBy(Y, 2, e, 0x841f8, 0x3908e, 0x65876);
    e := SqBy(Y, 2, e, 0x7211c, 0x5fa4d, 0x4bad9);
    e := SqUpBy(Y, 2, e, 0x5fa4d, 0x55f7d, 0x35344);
    e := SqBy(Y, 2, e, 0xabefa, 1, 0xabef9);
  }

  /** The witness of 313 for Y. */
  lemma ChainY_313()
    ensures Cong(Power(2, 0x8ca), 0x244d1, Y)
  {
    hide Cong, Power;
    Start(2, Y);
    var e := 1;
    e := SqBy(Y, 2, e, 2, 4, 0);
    e := SqBy(Y, 2, e, 4, 0x10, 0);
    e := SqBy(Y, 2, e, 0x10, 0x100, 0);
    e := SqUpBy(Y, 2, e, 0x100, 0x10000, 0);
    e := SqUpBy(Y, 2, e, 0x20000, 0x5a672, 0x5f4a);
    e := SqBy(Y, 2, e, 0xb4ce4, 0x74ab, 0xbe21f);
    e := SqBy(Y, 2, e, 0x74ab, 0x6f4f3, 0x4f2);
    e := SqUpBy(Y, 2, e, 0x6f4f3, 0x71977, 0x480f6);
    e := SqBy(Y, 2, e, 0xe32ee, 0x1ccd1, 0x12c2e9);
    e := SqUpBy(Y, 2, e, 0x1ccd1, 0xa7491, 0x4d30);
    e := SqBy(Y, 2, e, 0x14e922, 0x244d1, 0x28b0a9);
  }

  /** The witness of 5 for Y. */
  lemma ChainY_5()
    ensures Cong(Power(2, 0x22632), 0x8c557, Y)
  {
    hide Cong, Power;
    Start(2, Y);
    var e := 1;
    e := SqBy(Y, 2, e, 2, 4, 0);
    e := SqBy(Y, 2, e, 4, 0x10, 0);
    e := SqBy(Y, 2, e, 0x10, 0x100, 0);
    e := SqUpBy(Y, 2, e, 0x100, 0x10000, 0);
    e := SqBy(Y, 2, e, 0x20000, 0x5a672, 0x5f4a);
    e := SqBy(Y, 2, e, 0x5a672, 0x82c67, 0x2f887);
    e := SqUpBy(Y, 2, e, 0x82c67, 0x522dd, 0x6377c);
    e := SqUpBy(Y, 2, e, 0xa45ba, 0x1f539, 0x9d1d1);
    e := SqBy(Y, 2, e, 0x3ea72, 0x44631, 0x16d49);
    e := SqBy(Y, 2, e, 0x44631, 0x8ca6a, 0x1b335);
    e := SqBy(Y, 2, e, 0x8ca6a, 0x1d68a, 0x730ee);
    e := SqUpBy(Y, 2, e, 0x1d68a, 0x6cfcb, 0x507b);
    e := SqUpBy(Y, 2, e, 0xd9f96, 0xa7300, 0x11456c);
    e := SqBy(Y, 2, e, 0x14e600, 0x9ae58, 0x28a478);
    e := SqBy(Y, 2, e, 0x9ae58, 0x93e2, 0x8b8ba);
    e := SqUpBy(Y, 2, e, 0x93e2, 0x12e43, 0x7f3);
    e := SqBy(Y, 2, e, 0x25c86, 0x8c557, 0x84d7);
  }

  lemma PrimeY()
    ensures Prime(Y)
  {
    hide Cong, Power, Prime, Witness;
    Prime313(); Prime5();
    ChainY(); ChainY_313(); ChainY_5();
    MakeWitness(Y, 313, 2, 0x8ca, 0x244d1, 0x7d07f);
    MakeWitness(Y, 5, 2, 0x22632, 0x8c557, 0x4ad94);
    Pocklington2(Y, 313, 0x244d1, 5, 0x8c557);
  }

  // ---------------------------------------------------------------- X

  /** Fermat's condition for X. */
  lemma ChainX()
    ensures Cong(Power(2, X - 1), 1, X)
  {
    hide Cong, Power;
    Start(2, X);
    var e := 1;
    e := SqUpBy(X, 2, e, 2, 4, 0);
    e := SqBy(X, 2, e, 8, 0x40, 0);
    e := SqBy(X, 2, e, 0x40, 0x1000, 0);
    e := SqBy(X, 2, e, 0x1000, 0x1000000, 0);
    e := SqBy(X, 2, e, 0x1000000, 0x60467d5, 0x150c25);
    e := SqUpBy(X, 2, e, 0x60467d5, 0x1c5316f, 0x2fa0f96);
    e := SqBy(X, 2, e, 0x38a62de, 0x404de46, 0x107d7e2);
    e := SqUpBy(X, 2, e, 0x404de46, 0x8e83915, 0x153f801);
    e := SqBy(X, 2, e, 0x11d0722a, 0x8116f8e, 0x1a17594a);
    e := SqBy(X, 2, e, 0x8116f8e, 0x14cc279, 0x55a1205);
    e := SqUpBy(X, 2, e, 0x14cc279, 0x6f93cd3, 0x238fc2);
    e := SqUpBy(X, 2, e, 0xdf279a6, 0x5841dd4, 0xffe3930);
    e := SqBy(X, 2, e, 0xb083ba8, 0x926550c, 0xa01a78c);
    e := SqUpBy(X, 2, e, 0x926550c, 0xa64f5db, 0x6e20afb);
    e := SqUpBy(X, 2, e, 0x14c9ebb6, 0x30182e2, 0x23881f5e);
    e := SqUpBy(X, 2, e, 0x60305c4, 0x71c1acb, 0x2f8b16b);
    e := SqBy(X, 2, e, 0xe383596, 0x5f55c8d, 0x109fb639);
    e := SqUpBy(X, 2, e, 0x5f55c8d, 0xb4ab49, 0x2eb3fa0);
    e := SqBy(X, 2, e, 0x1695692, 0x76b75d5, 0x29eea1);
    e := SqBy(X, 2, e, 0x76b75d5, 0x4c209d4, 0x486b94b);
    e := SqBy(X, 2, e, 0x4c209d4, 0x44587f9, 0x1dc79f9);
    e := SqBy(X, 2, e, 0x44587f9, 0x4355674, 0x1800b73);
    e := SqBy(X, 2, e, 0x4355674, 0xde6839, 0x174c139);
    e := SqUpBy(X, 2, e, 0xde6839, 0x5469627, 0xfe2d6);
    e := SqUpBy(X, 2, e, 0xa8d2c4e, 0x7d7d9e0, 0x92747dc);
    e := SqUpBy(X, 2, e, 0xfafb3c0, 0x614dd08, 0x143af588);
    e := SqBy(X, 2, e, 0xc29ba10, 1, 0xc29ba11);
  }

  /** The witness of 3769 for X. */
  lemma ChainX_3769()
    ensures Cong(Power(2, 0xd37e), 0x37bdd17, X)
  {
    hide Cong, Power;
    Start(2, X);
    var e := 1;
    e := SqUpBy(X, 2, e, 2, 4, 0);
    e := SqBy(X, 2, e, 8, 0x40, 0);
    e := SqUpBy(X, 2, e, 0x40, 0x1000, 0);
    e := SqBy(X, 2, e, 0x2000, 0x4000000, 0);
    e := SqBy(X, 2, e, 0x4000000, 0xb2266e7, 0x150c257);
    e := SqUpBy(X, 2, e, 0xb2266e7, 0x3298ad5, 0xa3158a4);
    e := SqUpBy(X, 2, e, 0x65315aa, 0x9c5527, 0x349e573);
    e := SqBy(X, 2, e, 0x138aa4e, 0x220bbe9, 0x1f6575);
    e := SqUpBy(X, 2, e, 0x220bbe9, 0x6654bce, 0x5f4c8d);
    e := SqUpBy(X, 2, e, 0xcca979c, 0x324480c, 0xd73c4bc);
    e := SqUpBy(X, 2, e, 0x6489018, 0x7672254, 0x33efd54);
    e := SqUpBy(X, 2, e, 0xece44a8, 0x5611f47, 0x1205ce77);
    e := SqUpBy(X, 2, e, 0xac23e8e, 0x6bc5738, 0x98443b4);
    e := SqUpBy(X, 2, e, 0xd78ae70, 0x7e056f2, 0xeebab12);
    e := SqBy(X, 2, e, 0xfc0ade4, 0x37bdd17, 0x1466d777);
  }

  /** The witness of 107 for X. */
  lemma ChainX_107()
    ensures Cong(Power(2, 0x1d19aa), 0x6f2189d, X)
  {
    hide Cong, Power;
    Start(2, X);
    var e := 1;
    e := SqUpBy(X, 2, e, 2, 4, 0);
    e := SqUpBy(X, 2, e, 8, 0x40, 0);
    e := SqBy(X, 2, e, 0x80, 0x4000, 0);
    e := SqUpBy(X, 2, e, 0x4000, 0x3d645f1, 1);
    e := SqBy(X, 2, e, 0x7ac8be2, 0x725925a, 0x4d77e36);
    e := SqBy(X, 2, e, 0x725925a, 0xb4001a8, 0x4330644);
    e := SqBy(X, 2, e, 0xb4001a8, 0x963a309, 0xa67d459);
    e := SqUpBy(X, 2, e, 0x963a309, 0x260d1e6, 0x73f7be5);
    e := SqUpBy(X, 2, e, 0x4c1a3cc, 0x34c2829, 0x1dc2a29);
    e := SqBy(X, 2, e, 0x6985052, 0x298c7a5, 0x3936e71);
    e := SqBy(X, 2, e, 0x298c7a5, 0xbb631f2, 0x8dee29);
    e := SqUpBy(X, 2, e, 0xbb631f2, 0x3d5de6d, 0xb46f339);
    e := SqUpBy(X, 2, e, 0x7abbcda, 0x8413059, 0x4d67905);
    e := SqBy(X, 2, e, 0x108260b2, 0xa4fd385, 0x16689ed1);
    e := SqUpBy(X, 2, e, 0xa4fd385, 0xbe8274b, 0x8be0d52);
    e := SqBy(X, 2, e, 0x17d04e96, 0x1bf3514, 0x2e9fd830);
    e := SqUpBy(X, 2, e, 0x1bf3514, 0x73fb8bb, 0x403adb);
    e := SqBy(X, 2, e, 0xe7f7176, 0x48272eb, 0x1147e5f7);
    e := SqUpBy(X, 2, e, 0x48272eb, 0x879d491, 0x1ac0658);
    e := SqBy(X, 2, e, 0x10f3a922, 0x6f2189d, 0x17a044a9);
  }

  lemma PrimeX()
    ensures Prime(X)
  {
    hide Cong, Power, Prime, Witness;
    Prime3769(); Prime107();
    ChainX(); ChainX_3769(); ChainX_107();
    MakeWitness(X, 3769, 2, 0xd37e, 0x37bdd17, 0x67c75d5);
    MakeWitness(X, 107, 2, 0x1d19aa, 0x6f2189d, 0x434a49b);
    Pocklington2(X, 3769, 0x37bdd17, 107, 0x6f2189d);
  }

  // ---------------------------------------------------------------- W

  /** Fermat's condition for W. */
  lemma ChainW()
    ensures Cong(Power(2, W - 1), 1, W)
  {
    hide Cong, Power;
    Start(2, W);
    var e := 1;
    e := SqUpBy(W, 2, e, 2, 4, 0);
    e := SqUpBy(W, 2, e, 8, 0x40, 0);
    e := SqUpBy(W, 2, e, 0x80, 0x4000, 0);
    e := SqUpBy(W, 2, e, 0x8000, 0x40000000, 0);
    e := SqUpBy(W, 2, e, 0x80000000, 0x61de3bc17, 0x804a091);
    e := SqUpBy(W, 2, e, 0xc3bc7782e, 0x11911a130, 0x12bfe71f34);
    e := SqUpBy(W, 2, e, 0x232234260, 0x6a20cf552, 0x9aa5195e);
    e := SqBy(W, 2, e, 0xd4419eaa4, 0x59c11f376, 0x160c51482a);
    e := SqUpBy(W, 2, e, 0x59c11f376, 0x421ce6f10, 0x3f1419d74);
    e := SqUpBy(W, 2, e, 0x8439cde20, 0x4e853e45a, 0x88e653f16);
    e := SqBy(W, 2, e, 0x9d0a7c8b4, 0x2ceb3ac42, 0xc11b2b5fe);
    e := SqUpBy(W, 2, e, 0x2ceb3ac42, 0x3cf099395, 0xfcc86c87);
    e := SqUpBy(W, 2, e, 0x79e13272a, 0x30ed59211, 0x74506f88b);
    e := SqBy(W, 2, e, 0x61dab2422, 0x4d59fe368, 0x4afa30c7c);
    e := SqBy(W, 2, e, 0x4d59fe368, 0x605b0adfd, 0x2ed98e97b);
    e := SqBy(W, 2, e, 0x605b0adfd, 0x7c90503df, 0x48b2c553a);
    e := SqUpBy(W, 2, e, 0x7c90503df, 0x43ff3569b, 0x797e5b516);
    e := SqBy(W, 2, e, 0x87fe6ad36, 0x42602e03b, 0x90d0355d1);
    e := SqBy(W, 2, e, 0x42602e03b, 0x12e2881e5, 0x227f604d4);
    e := SqBy(W, 2, e, 0x12e2881e5, 0x7c1f51acf, 0x2cae3c1a);
    e := SqBy(W, 2, e, 0x7c1f51acf, 0x3b450a7d8, 0x78a254131);
    e := SqUpBy(W, 2, e, 0x3b450a7d8, 0x2ec11fca, 0x1b81aaa66);
    e := SqUpBy(W, 2, e, 0x5d823f94, 0x49465aa82, 0x44774be);
    e := SqBy(W, 2, e, 0x928cb5504, 0x392df2e49, 0xa82aa4c9f);
    e := SqBy(W, 2, e, 0x392df2e49, 0x46ea55d2e, 0x1999c2fdb);
    e := SqUpBy(W, 2, e, 0x46ea55d2e, 0x1e323bf13, 0x2760b4719);
    e := SqUpBy(W, 2, e, 0x3c6477e26, 0x63a9faed1, 0x1c8efa68b);
    e := SqUpBy(W, 2, e, 0xc753f5da2, 0x792f41264, 0x1371ad1520);
    e := SqBy(W, 2, e, 0xf25e824c8, 0x134e8cbe, 0x1cbf714852);
    e := SqUpBy(W, 2, e, 0x134e8cbe, 0x5fcfb6e9, 0x2eb313);
    e := SqUpBy(W, 2, e, 0xbf9f6dd2, 0x4bd507abe, 0x11f847f6);
    e := SqBy(W, 2, e, 0x97aa0f57c, 0x7fb6219d8, 0xb41c0f0f8);
    e := SqBy(W, 2, e, 0x7fb6219d8, 1, 0x7fb6219d7);
    e := SqBy(W, 2, e, 1, 1, 0);
  }

  /** The witness of X for W. */
  lemma ChainW_X()
    ensures Cong(Power(2, 0xa8), 0x6f58fce4b, W)
  {
    hide Cong, Power;
    Start(2, W);
    var e := 1;
    e := SqBy(W, 2, e, 2, 4, 0);
    e := SqUpBy(W, 2, e, 4, 0x10, 0);
    e := SqBy(W, 2, e, 0x20, 0x400, 0);
    e := SqUpBy(W, 2, e, 0x400, 0x100000, 0);
    e := SqBy(W, 2, e, 0x200000, 0x24ef31380, 0x80);
    e := SqBy(W, 2, e, 0x24ef31380, 0x4ca19df4d, 0xaae74b6b);
    e := SqBy(W, 2, e, 0x4ca19df4d, 0x6f58fce4b, 0x2dfb40d0e);
  }

  lemma PrimeW()
    ensures Prime(W)
  {
    hide Cong, Power, Prime, Witness;
    PrimeX();
    ChainW(); ChainW_X();
    MakeWitness(W, X, 2, 0xa8, 0x6f58fce4b, 0x1534f87ca);
    Pocklington(W, X, 0x6f58fce4b);
  }

  // ---------------------------------------------------------------- V

  lemma ChainV_1()
    ensures Cong(Power(2, 0x147657f1865), 0x942297f4de4d6e, V)
  {
    hide Cong, Power;
    Start(2, V);
    var e := 1;
    e := SqBy(V, 2, e, 2, 4, 0);
    e := SqUpBy(V, 2, e, 4, 0x10, 0);
    e := SqBy(V, 2, e, 0x20, 0x400, 0);
    e := SqBy(V, 2, e, 0x400, 0x100000, 0);
    e := SqBy(V, 2, e, 0x100000, 0x10000000000, 0);
    e := SqUpBy(V, 2, e, 0x10000000000, 0xa34cf9d92e2bbd, 0x19058ad);
    e := SqUpBy(V, 2, e, 0x14699f3b25c577a, 0x74fcd2c159d234, 0x28b9dcdafab6710);
    e := SqUpBy(V, 2, e, 0xe9f9a582b3a468, 0x249b312c9b0873, 0x14e6c2dff28d643);
    e := SqBy(V, 2, e, 0x493662593610e6, 0x767487a69ce435, 0x20be59318cd041);
    e := SqUpBy(V, 2, e, 0x767487a69ce435, 0x4eb5381155c4a7, 0x55b769e77adb4e);
    e := SqUpBy(V, 2, e, 0x9d6a7022ab894e, 0x6fb6202172d137, 0x975fda2031b183);
    e := SqBy(V, 2, e, 0xdf6c4042e5a26e, 0x9ddae0bc24ea59, 0x130f010b7e7a485);
    e := SqBy(V, 2, e, 0x9ddae0bc24ea59, 0x953f1d43923333, 0x98386725e4bba2);
    e := SqUpBy(V, 2, e, 0x953f1d43923333, 0x9840919ec3e068, 0x881217ec3e788f);
    e := SqBy(V, 2, e, 0x13081233d87c0d0, 0x24f166fc767e1b, 0x2366d164156a4ab);
    e := SqUpBy(V, 2, e, 0x24f166fc767e1b, 0x2c660ce568e38b, 0x85652354e4512);
    e := SqBy(V, 2, e, 0x58cc19cad1c716, 0x70d000fb005233, 0x302ae959610b9f);
    e := SqUpBy(V, 2, e, 0x70d000fb005233, 0x412e32fbeb2456, 0x4dbea1fe14581d);
    e := SqUpBy(V, 2, e, 0x825c65f7d648ac, 0x468af470540de7, 0x67d013b84d2727);
    e := SqUpBy(V, 2, e, 0x8d15e8e0a81bce, 0x57ac01a5eb746f, 0x7998b81f54ed3b);
    e := SqUpBy(V, 2, e, 0xaf58034bd6e8de, 0x2aabae9de9675a, 0xbbd15db2a1f3f6);
    e := SqUpBy(V, 2, e, 0x55575d3bd2ceb4, 0x4ff4d9930f100b, 0x2c7dbf9cc2d30b);
    e := SqUpBy(V, 2, e, 0x9fe9b3261e2016, 0x11ad3bc3be3204, 0x9c370f3ff0a620);
    e := SqUpBy(V, 2, e, 0x235a77877c6408, 0x92162e7cc38f90, 0x7a299bac60650);
    e := SqBy(V, 2, e, 0x1242c5cf9871f20, 0x72f0623c12d2c0, 0x2097ab05bff72c0);
    e := SqBy(V, 2, e, 0x72f0623c12d2c0, 0x272f8b769cbf50, 0x50b405bcffe650);
    e := SqBy(V, 2, e, 0x272f8b769cbf50, 0x63233147a048b3, 0x961543a9f8fc3);
    e := SqUpBy(V, 2, e, 0x63233147a048b3, 0x8632534a8b0612, 0x3c09ebca198819);
    e := SqUpBy(V, 2, e, 0x10c64a695160c24, 0x7df1ed07ac4df6, 0x1b80bfe0cc57106);
    e := SqBy(V, 2, e, 0xfbe3da0f589bec, 0xaac3be12239b6, 0x183984909365c46);
    e := SqBy(V, 2, e, 0xaac3be12239b6, 0xf179be073b625, 0xb222d3672471);
    e := SqBy(V, 2, e, 0xf179be073b625, 0x7ae8c9a372af01, 0x16434f8a88928);
    e := SqBy(V, 2, e, 0x7ae8c9a372af01, 0x90dbff816f2d07, 0x5c48aa14346d26);
    e := SqUpBy(V, 2, e, 0x90dbff816f2d07, 0x4041d3265c4e3d, 0x8030439483f44c);
    e := SqUpBy(V, 2, e, 0x8083a64cb89c7a, 0x9d272bb7ed8c98, 0x64e476d2793e34);
    e := SqBy(V, 2, e, 0x13a4e576fdb1930, 0x155a9dc734208f, 0x25b7a5adb9f22df);
    e := SqBy(V, 2, e, 0x155a9dc734208f, 0x17c17e09c4f0e0, 0x2c91ac599d94f);
    e := SqUpBy(V, 2, e, 0x17c17e09c4f0e0, 0x6474c48f181c65, 0x3728b435050d5);
    e := SqBy(V, 2, e, 0xc8e9891e3038ca, 0x63d468771b8d3d, 0xf6961387ca3209);
    e := SqUpBy(V, 2, e, 0x63d468771b8d3d, 0x4a114bfa6f26b7, 0x3ce15161ce07ce);
  }

  /** Fermat's condition for V. */
  lemma ChainV()
    ensures Cong(Power(2, V - 1), 1, V)
  {
    hide Cong, Power;
    ChainV_1();
    var e := 0x147657f1865;
    e := SqUpBy(V, 2, e, 0x942297f4de4d6e, 0x4f295d155d3f84, 0x860d385a209040);
    e := SqBy(V, 2, e, 0x9e52ba2aba7f08, 0x8f8f98f79b6a6a, 0x991fe365ba7d0a);
    e := SqBy(V, 2, e, 0x8f8f98f79b6a6a, 0x595f9f275e4638, 0x7de69b5178f814);
    e := SqUpBy(V, 2, e, 0x595f9f275e4638, 0x41f8229fbf4b5a, 0x30cb798b8596fa);
    e := SqUpBy(V, 2, e, 0x83f0453f7e96b4, 0x6ff28cb4f200f8, 0x6a57373bf791e8);
    e := SqUpBy(V, 2, e, 0xdfe51969e401f0, 0xa0517a9a9175e6, 0x1323a4ad20a7d06);
    e := SqBy(V, 2, e, 0x140a2f53522ebcc, 0x9cc13771625e6, 0x274084d0ebd4076);
    e := SqUpBy(V, 2, e, 0x9cc13771625e6, 0x78dfea9a604b3, 0x961b14d25d5f);
    e := SqBy(V, 2, e, 0xf1bfd534c0966, 0x75153a03dfa87f, 0x16503df92876b);
    e := SqUpBy(V, 2, e, 0x75153a03dfa87f, 0x1bd79a8d7f8802, 0x53bdf0651f80b1);
    e := SqBy(V, 2, e, 0x37af351aff1004, 0x7f196c3be3b9b4, 0x12f11f42571664);
    e := SqUpBy(V, 2, e, 0x7f196c3be3b9b4, 0x4b8ed62d1786f7, 0x62aed9857dc837);
    e := SqUpBy(V, 2, e, 0x971dac5a2f0dee, 0x55f8f70f6a4c8c, 0x8b802df34afcc8);
    e := SqUpBy(V, 2, e, 0xabf1ee1ed49918, 0x51d95fc6196758, 0xb49b782a4c5d98);
    e := SqBy(V, 2, e, 0xa3b2bf8c32ceb0, 1, 0xa3b2bf8c32ceb1);
  }

  /** The witness of Y for V. */
  lemma ChainV_Y()
    ensures Cong(Power(2, 0xf3bbf34aa), 0x3505c3c9f91b61, V)
  {
    hide Cong, Power;
    Start(2, V);
    var e := 1;
    e := SqUpBy(V, 2, e, 2, 4, 0);
    e := SqUpBy(V, 2, e, 8, 0x40, 0);
    e := SqUpBy(V, 2, e, 0x80, 0x4000, 0);
    e := SqBy(V, 2, e, 0x8000, 0x40000000, 0);
    e := SqBy(V, 2, e, 0x40000000, 0x38b4b4f09d0e9, 0x19);
    e := SqUpBy(V, 2, e, 0x38b4b4f09d0e9, 0xef694c3b48a57, 0x13a4a8e27066);
    e := SqUpBy(V, 2, e, 0x1ded29876914ae, 0xecde7a4ae66dd, 0x578925c7888c9);
    e := SqUpBy(V, 2, e, 0x1d9bcf495ccdba, 0x99b7e57f0ab2da, 0x55afc1c8baed6);
    e := SqBy(V, 2, e, 0x1336fcafe1565b4, 0x72322ffc07358c, 0x2416334e6f6203c);
    e := SqUpBy(V, 2, e, 0x72322ffc07358c, 0xa0fbed85fb842b, 0x4fa9cc0663c72b);
    e := SqUpBy(V, 2, e, 0x141f7db0bf70856, 0x2db36cdec8208e, 0x2794282b65dae8a);
    e := SqUpBy(V, 2, e, 0x5b66d9bd90411c, 0x3c0b971d324ac0, 0x3308dea774a8b0);
    e := SqBy(V, 2, e, 0x78172e3a649580, 0x22951648776556, 0x58197bc2634a76);
    e := SqUpBy(V, 2, e, 0x22951648776556, 0x48763c30046253, 0x74e4670ca3ebf);
    e := SqUpBy(V, 2, e, 0x90ec786008c4a6, 0x1188e9f1f4b5c, 0x804d6c65c60638);
    e := SqUpBy(V, 2, e, 0x2311d3e3e96b8, 0xba3e93da1d57c, 0x78359e16e7c);
    e := SqUpBy(V, 2, e, 0x1747d27b43aaf8, 0x78c41b231f7c9a, 0x34f957364003a);
    e := SqUpBy(V, 2, e, 0xf18836463ef934, 0x483fd87ca44c89, 0x1645faa6600f429);
    e := SqUpBy(V, 2, e, 0x907fb0f9489912, 0x5beae6fa9412d1, 0x7f8d1981cea97d);
    e := SqBy(V, 2, e, 0xb7d5cdf52825a2, 0x9cc8e2759a8f3, 0xce72ff5a3eb3bf);
    e := SqBy(V, 2, e, 0x9cc8e2759a8f3, 0x72f56e1a3312f3, 0x9629c4af952a);
    e := SqUpBy(V, 2, e, 0x72f56e1a3312f3, 0x56bf6c5220a95d, 0x50bb1c0959de74);
    e := SqUpBy(V, 2, e, 0xad7ed8a44152ba, 0x74000bde36c1d1, 0xb7e10d7d9d949d);
    e := SqBy(V, 2, e, 0xe80017bc6d83a2, 0x5860ecff7a0a77, 0x148cd182e8a0403);
    e := SqUpBy(V, 2, e, 0x5860ecff7a0a77, 0x748ea8b06459a3, 0x2fb6e99ef2ccb2);
    e := SqBy(V, 2, e, 0xe91d5160c8b346, 0x3b704004d08ef4, 0x14bf780cd43a6d0);
    e := SqBy(V, 2, e, 0x3b704004d08ef4, 0x12cb568d6a5d58, 0x1594fcd6690648);
    e := SqUpBy(V, 2, e, 0x12cb568d6a5d58, 0x1696ee68f04119, 0x228647c334709);
    e := SqBy(V, 2, e, 0x2d2ddcd1e08232, 0xe8c8c612856ce, 0xc7811545721ea);
    e := SqUpBy(V, 2, e, 0xe8c8c612856ce, 0x8947fd47bbdf4f, 0x14b06e2273e1b);
    e := SqBy(V, 2, e, 0x1128ffa8f77be9e, 0x96560f11789226, 0x1cc8251e7d56602);
    e := SqUpBy(V, 2, e, 0x96560f11789226, 0x1f6e2dcb3b77d2, 0x8a10966174fbce);
    e := SqBy(V, 2, e, 0x3edc5b9676efa4, 0x814357053addc9, 0x1823877ff93ae9);
    e := SqUpBy(V, 2, e, 0x814357053addc9, 0x34db030ac5ca7, 0x661252248501f6);
    e := SqBy(V, 2, e, 0x69b606158b94e, 0x3505c3c9f91b61, 0x4443c7c9be8d);
  }

  lemma ChainV_18169_1()
    ensures Cong(Power(2, 0x1273b4d24cf), 0x9e6c4ae7ed41fc, V)
  {
    hide Cong, Power;
    Start(2, V);
    var e := 1;
    e := SqBy(V, 2, e, 2, 4, 0);
    e := SqBy(V, 2, e, 4, 0x10, 0);
    e := SqUpBy(V, 2, e, 0x10, 0x100, 0);
    e := SqBy(V, 2, e, 0x200, 0x40000, 0);
    e := SqBy(V, 2, e, 0x40000, 0x1000000000, 0);
    e := SqUpBy(V, 2, e, 0x1000000000, 0x6f43186b9783d8, 0x19058);
    e := SqUpBy(V, 2, e, 0xde8630d72f07b0, 0x53198de109fbed, 0x12e7d55b40250dd);
    e := SqUpBy(V, 2, e, 0xa6331bc213f7da, 0x3b604ec0893f86, 0xa8bd40f36d3342);
    e := SqBy(V, 2, e, 0x76c09d81127f0c, 0x759a93fc3fdfd2, 0x5625aa5e0d22a2);
    e := SqBy(V, 2, e, 0x759a93fc3fdfd2, 0x1c8dc552e8d8cd, 0x547d1e74769db9);
    e := SqUpBy(V, 2, e, 0x1c8dc552e8d8cd, 0x17ccbb59ed4167, 0x4fb0a0cb119de);
    e := SqUpBy(V, 2, e, 0x2f9976b3da82ce, 0x8f51918055598b, 0xdd73c9367d597);
    e := SqUpBy(V, 2, e, 0x11ea32300aab316, 0x7d0a8d29f81dc6, 0x1f5e79ad6c75142);
    e := SqBy(V, 2, e, 0xfa151a53f03b8c, 0x1e6afdabcc8f15, 0x17e0d49e80808f5);
    e := SqUpBy(V, 2, e, 0x1e6afdabcc8f15, 0x1a70edcab962d8, 0x5a6f4c69db96f);
    e := SqUpBy(V, 2, e, 0x34e1db9572c5b0, 0x41537e02d131f6, 0x11155df7d5dc16);
    e := SqBy(V, 2, e, 0x82a6fc05a263ec, 0x28b88bc26a13a4, 0x684700c4306bd4);
    e := SqUpBy(V, 2, e, 0x28b88bc26a13a4, 0x633de598f1da45, 0xa212a841650a5);
    e := SqBy(V, 2, e, 0xc67bcb31e3b48a, 0x2a63631b7ec32e, 0xf0a921c860d9aa);
    e := SqBy(V, 2, e, 0x2a63631b7ec32e, 0xa01b29f4da360d, 0xaf9df423382f9);
    e := SqUpBy(V, 2, e, 0xa01b29f4da360d, 0x11ae336e1026e1, 0x9c97c22f05b8b8);
    e := SqUpBy(V, 2, e, 0x235c66dc204dc2, 0x2f28ff8d92b0be, 0x7a36fb3d10f9a);
    e := SqBy(V, 2, e, 0x5e51ff1b25617c, 0x7636dd059ed0a3, 0x3658893d7056a3);
    e := SqUpBy(V, 2, e, 0x7636dd059ed0a3, 0x8b48f7dc6cdab0, 0x555e421e07b2b7);
    e := SqBy(V, 2, e, 0x11691efb8d9b560, 0x3dd8cdabbbc9cf, 0x1da0d01b85fdd1f);
    e := SqBy(V, 2, e, 0x3dd8cdabbbc9cf, 0x169feba89496d5, 0x175dcc0c68cd34);
    e := SqUpBy(V, 2, e, 0x169feba89496d5, 0x95eab7a4ec1432, 0x3207ff2da9129);
    e := SqBy(V, 2, e, 0x12bd56f49d82864, 0x22aaeb6fe33d28, 0x2252ed002722e98);
    e := SqBy(V, 2, e, 0x22aaeb6fe33d28, 0x6eeda170046095, 0x75782d8ae27c5);
    e := SqUpBy(V, 2, e, 0x6eeda170046095, 0x41df297e49668a, 0x4b2b54b8069681);
    e := SqBy(V, 2, e, 0x83be52fc92cd14, 0x8e549bc5a40f4a, 0x6a06c35df6eb9a);
    e := SqBy(V, 2, e, 0x8e549bc5a40f4a, 0x140dd63fea9f53, 0x7bc07e2b8f4b3f);
    e := SqUpBy(V, 2, e, 0x140dd63fea9f53, 0x32c8ed6bf792c8, 0x274ed499e502f);
    e := SqUpBy(V, 2, e, 0x6591dad7ef2590, 0x7e4f8d178da167, 0x3f055af0bd9837);
    e := SqBy(V, 2, e, 0xfc9f1a2f1b42ce, 0x3d4d43eee8966a, 0x185d9624a3354c6);
    e := SqBy(V, 2, e, 0x3d4d43eee8966a, 0x704ff7294dc95e, 0x16f4d2e84d5f5a);
    e := SqUpBy(V, 2, e, 0x704ff7294dc95e, 0x579d3a7b98c6a, 0x4d0e8c8545c606);
    e := SqUpBy(V, 2, e, 0xaf3a74f7318d4, 0x9cb8ef0a4842af, 0xbb9211d4216f);
    e := SqUpBy(V, 2, e, 0x13971de1490855e, 0x6e3918640d5074, 0x2582ce1426e66f0);
    e := SqUpBy(V, 2, e, 0xdc7230c81aa0e8, 0x4f362573f6a0fe, 0x128ddbba65bc35e);
  }

  /** The witness of 18169 for V. */
  lemma ChainV_18169()
    ensures Cong(Power(2, 0x24e769a499e), 0x9268846811feaa, V)
  {
    hide Cong, Power;
    ChainV_18169_1();
    var e := 0x1273b4d24cf;
    e := SqBy(V, 2, e, 0x9e6c4ae7ed41fc, 0x9268846811feaa, 0x99515b12322e7a);
  }

  lemma PrimeV()
    ensures Prime(V)
  {
    hide Cong, Power, Prime, Witness;
    PrimeY(); Prime18169();
    ChainV(); ChainV_Y(); ChainV_18169();
    MakeWitness(V, Y, 2, 0xf3bbf34aa, 0x3505c3c9f91b61, 0x3382d1c86f8bb8);
    MakeWitness(V, 18169, 2, 0x24e769a499e, 0x9268846811feaa, 0xa10524338504ac);
    Pocklington2(V, Y, 0x3505c3c9f91b61, 18169, 0x9268846811feaa);
  }

  // ---------------------------------------------------------------- U

  lemma ChainU_1()
    ensures Cong(Power(2, 0x115aacdae40), 0x125b531fd48f3556a44d2645d25c506f10e892, U)
  {
    hide Cong, Power;
    Start(2, U);
    var e := 1;
    e := SqBy(U, 2, e, 2, 4, 0);
    e := SqBy(U, 2, e, 4, 0x10, 0);
    e := SqBy(U, 2, e, 0x10, 0x100, 0);
    e := SqUpBy(U, 2, e, 0x100, 0x10000, 0);
    e := SqBy(U, 2, e, 0x20000, 0x400000000, 0);
    e := SqUpBy(U, 2, e, 0x400000000, 0x100000000000000000, 0);
    e := SqBy(U, 2, e, 0x200000000000000000, 0x40000000000000000000000000000000000, 0);
    e := SqUpBy(U, 2, e, 0x40000000000000000000000000000000000, 0xea41932a69d26c3f1ce2c991916fcfc37264d, 0x760303dd850303dc98fcfc2204f9f845);
    e := SqUpBy(U, 2, e, 0x1d4832654d3a4d87e39c5932322df9f86e4c9a, 0x1391be7af00d0dbe0cfa9c0a257d60a1f773ef, 0x18b439f236b8a002f87d93f787f896a63a4593);
    e := SqBy(U, 2, e, 0x27237cf5e01a1b7c19f538144afac143eee7de, 0x154cc28890123b63063d04adad0906fdeeda04, 0x2c22637da04cea890320a442be1f509ab31980);
    e := SqUpBy(U, 2, e, 0x154cc28890123b63063d04adad0906fdeeda04, 0x3dede97381a84228627001ee2262c31922c12, 0xd123f9d3d46e21d9b518b2e8419d855c707b2);
    e := SqBy(U, 2, e, 0x7bdbd2e703508450c4e003dc44c5863245824, 0x1ccd5462707e6161e908ed1f05f694058e960e, 0x1b9fefa691e98acaaee3d404bbbdeabc51d4e);
    e := SqUpBy(U, 2, e, 0x1ccd5462707e6161e908ed1f05f694058e960e, 0xdce97da25612eae7efbaac9d792ff7c297923, 0x17e69c09f17e276aa12aacf728bab486bdbb87);
    e := SqBy(U, 2, e, 0x1b9d2fb44ac25d5cfdf75593af25fef852f246, 0x62c01be015d4271ba0e8a101c879754231dbb, 0x15f83ef2348c5cc1cc384a7e1de7ad950754ff);
    e := SqUpBy(U, 2, e, 0x62c01be015d4271ba0e8a101c879754231dbb, 0x817a7a96d0b428d417eaa4ef210e4d40eb8d4, 0x118f5923d1b2a4badea6d165e901055c25b03);
    e := SqBy(U, 2, e, 0x102f4f52da16851a82fd549de421c9a81d71a8, 0x20f0a6a87ef0eadde9d4f7ce6788d06725def4, 0x78c0ef80d33e0798e0f6e1ea72d60dacb3c94);
    e := SqUpBy(U, 2, e, 0x20f0a6a87ef0eadde9d4f7ce6788d06725def4, 0x1e4244ad2f5c3603cd2824fc83f5d733bec955, 0x1f430422b76c58e7dba4ac461e19a5ce46affd);
    e := SqUpBy(U, 2, e, 0x3c84895a5eb86c079a5049f907ebae677d92aa, 0x169d97bde627f6dbd4c73bedf48faf8e4e1a48, 0x6984db09e0012e4dda28a47f23b39b0d71e1c4);
    e := SqBy(U, 2, e, 0x2d3b2f7bcc4fedb7a98e77dbe91f5f1c9c3490, 0x12ba35b99aa3f0cb5dd3fb7825f728c608d976, 0x3af1baced6d2f446725d32558f70b16eb97a06);
    e := SqBy(U, 2, e, 0x12ba35b99aa3f0cb5dd3fb7825f728c608d976, 0x260d032966417d8a9b4379c02b15d8c114393, 0xa1ac7b89d9a61f2ed3f8c475afd3293a7ebd7);
    e := SqUpBy(U, 2, e, 0x260d032966417d8a9b4379c02b15d8c114393, 0x13ff65952243b4cabe326b33a03282059d9216, 0x29b7132436f1eb140b1e52adbef3dfee86a5);
    e := SqUpBy(U, 2, e, 0x27fecb2a448769957c64d6674065040b3b242c, 0x194adec18aa3a7eb6caa0ebe3a31dea69f206a, 0x2e1665b67e10d3639e5c4a9ece50363718f2ca);
    e := SqBy(U, 2, e, 0x3295bd8315474fd6d9541d7c7463bd4d3e40d4, 0x1d9784f7e35caac9ad17428cc1e5853d436d7b, 0x49b9499ab919f92924a33bbcd8b1066c4b9333);
    e := SqUpBy(U, 2, e, 0x1d9784f7e35caac9ad17428cc1e5853d436d7b, 0x1686338b1bbde04d83e61e8ca63a44e551a35a, 0x193ac6d58c325060bda8886f497183bb1f9619);
    e := SqUpBy(U, 2, e, 0x2d0c6716377bc09b07cc3d194c7489caa346b4, 0x217980ec22921cb1eda6536a86575dd44ee74d, 0x3a780b21fd2cb839425138d6ababa332708935);
    e := SqBy(U, 2, e, 0x42f301d845243963db4ca6d50caebba89dce9a, 0x14bf74684530ed396f3255f4019e199cdc211e, 0x812389609ee9de66b91a9dffec734df37fd56a);
    e := SqUpBy(U, 2, e, 0x14bf74684530ed396f3255f4019e199cdc211e, 0x20be02cafbb70abe87171eba78cf08902e1666, 0xc67103cdb19805a8c9031bbe83ee56ef70f92);
    e := SqBy(U, 2, e, 0x417c0595f76e157d0e2e3d74f19e11205c2ccc, 0xd0f388acd97515632a4dfb6488f27069dda57, 0x7b8cbd1f8e6d4c60d118d8835c9712aa2b0aaf);
    e := SqUpBy(U, 2, e, 0xd0f388acd97515632a4dfb6488f27069dda57, 0x146ba67f2df0b652a4983ab65b9539658fff68, 0x4e9ed6a2442f31b738e2d17987e7de3a1563f);
    e := SqUpBy(U, 2, e, 0x28d74cfe5be16ca54930756cb72a72cb1ffed0, 0x21da5a60be1f3ce34162da38272650fe865d24, 0x300ea52c7388c8569d571dffeb49ca5bf3a684);
    e := SqUpBy(U, 2, e, 0x43b4b4c17c3e79c682c5b4704e4ca1fd0cba48, 0xdca625458c93c31f1ca90d4667b1fe8e5da64, 0x8413035bd2bdf1404aeb9f9abe1f1aa00c0884);
    e := SqBy(U, 2, e, 0x1b94c4a8b1927863e39521a8ccf63fd1cbb4c8, 0x4bad2119c5fa835c0053355c7891e4a836a75, 0x15eadbe1067311082a89dcb325e2e0bd5393ed);
    e := SqBy(U, 2, e, 0x4bad2119c5fa835c0053355c7891e4a836a75, 0x8c82dcf1e364f5e390136726ba4157c2917f0, 0xa5001afccb0618fc0adbb1ebe9ace88e05df);
    e := SqUpBy(U, 2, e, 0x8c82dcf1e364f5e390136726ba4157c2917f0, 0x18a7f9a786fbae6863b9371e48ae2056538147, 0x238d60e199791bc28d06ad33d5b1ea4c51f2f);
    e := SqBy(U, 2, e, 0x314ff34f0df75cd0c7726e3c915c40aca7028e, 0x12f44e479be00e9480b487d84ffbab69df9819, 0x460f9a8e2faac80cb2f91c0d32a767de655a0d);
    e := SqBy(U, 2, e, 0x12f44e479be00e9480b487d84ffbab69df9819, 0x94d073c9d319389a646c9f4f5499ea3f78a75, 0xa59da56079b05c8479b5302f0f6ffe8de2f64);
    e := SqBy(U, 2, e, 0x94d073c9d319389a646c9f4f5499ea3f78a75, 0x12e68c18fa18a6103812e23c3cd5935d3ba02b, 0x27e0cbc621d065c913e9ed1b2a03a13d666e2);
    e := SqBy(U, 2, e, 0x12e68c18fa18a6103812e23c3cd5935d3ba02b, 0xd3baea40637f44fa6932aa43b93ecc5348786, 0xa4ad8d99a759ea330553919298f66192b8245);
    e := SqBy(U, 2, e, 0xd3baea40637f44fa6932aa43b93ecc5348786, 0x10c4b915150b5b28b2d0822b85a28adac83fdd, 0x50b9bacb4a9f12e886092936f55052f6916d1);
    e := SqBy(U, 2, e, 0x10c4b915150b5b28b2d0822b85a28adac83fdd, 0x125b531fd48f3556a44d2645d25c506f10e892, 0x819ea8007b04517c77dc364091f41aca88261);
  }

  lemma ChainU_2()
    ensures Cong(Power(2, 0x115aacdae40b5700791bc), 0xdf6fc5eb649bdcb826a23e7b386d69e02de4f, U)
  {
    hide Cong, Power;
    ChainU_1();
    var e := 0x115aacdae40;
    e := SqUpBy(U, 2, e, 0x125b531fd48f3556a44d2645d25c506f10e892, 0x8271b6c8151b1803681bb6c36bb03ef79b8c5, 0x9b5667a7469640c62a08f8554efd40f59ef59);
    e := SqBy(U, 2, e, 0x104e36d902a363006d0376d86d7607def3718a, 0x11a79a33e2f5480926de04f6121fa411436329, 0x7a8fce66236a5e5396305eeb37957dc6123fd);
    e := SqUpBy(U, 2, e, 0x11a79a33e2f5480926de04f6121fa411436329, 0x16cc4a24d8f54437676573f2eb6e24c60e77af, 0x8faee4675b5ae425c884833a54b40bf2f326e);
    e := SqUpBy(U, 2, e, 0x2d989449b1ea886ececae7e5d6dc498c1cef5e, 0x1f7fbac0a70d5a9a924f0cc1f6e54dbb6098ff, 0x3be620ed4cd8f3389df6652f823f2264adf143);
    e := SqBy(U, 2, e, 0x3eff75814e1ab535249e1983edca9b76c131fe, 0x1023300942a1c59947ac81168c55b7043c9d0c, 0x7258552bc3ad9ee8d7b2590074fc18687bcbc8);
    e := SqUpBy(U, 2, e, 0x1023300942a1c59947ac81168c55b7043c9d0c, 0x131e21f4ef5392148559db9bcca38705b18e5d, 0x780c506fc7420c115563bb51f4b96d0ae3bc5);
    e := SqBy(U, 2, e, 0x263c43e9dea724290ab3b73799470e0b631cba, 0x1b84da4ca5be69b9116023865d59cb4d9fc195, 0x2a1eeed17728cba4fd92c9e614957a7f1a8ec9);
    e := SqUpBy(U, 2, e, 0x1b84da4ca5be69b9116023865d59cb4d9fc195, 0x1c163fa4aa513ef26d6436555ff6667c5ffd83, 0x15d197c66108b721f44d9cc707e2b174db393a);
    e := SqBy(U, 2, e, 0x382c7f4954a27de4dac86caabfecccf8bffb06, 0x163e279c28e11697f9ecc9ac1561cd7eaddc9, 0x5aea1e5f52ad238538d2b8e30ad3438d7af5dd);
    e := SqUpBy(U, 2, e, 0x163e279c28e11697f9ecc9ac1561cd7eaddc9, 0x11075be33ae8bdf689bef2d12de7dc6a94b4ff, 0xe4115bbbec9c8778ed4040977ce286b11fe);
    e := SqUpBy(U, 2, e, 0x220eb7c675d17bed137de5a25bcfb8d52969fe, 0x128cd2c701d7b21d626dac4edb90a22241277c, 0x216b35d4d8e0067e4184c353e042beecb734b8);
    e := SqUpBy(U, 2, e, 0x2519a58e03af643ac4db589db7214444824ef8, 0xe12b9b97081ff11d28d21abdcfe4f27bc0dc0, 0x27a82303478adf1056146918ab33ae0df16180);
    e := SqBy(U, 2, e, 0x1c257372e103fe23a51a4357b9fc9e4f781b80, 0x1869c59a17fc7069dd4d4988b4514acd3a3c67, 0x16d328f1f8c6955cc81dc6a8ce67af5131f64f);
    e := SqBy(U, 2, e, 0x1869c59a17fc7069dd4d4988b4514acd3a3c67, 0x162fbe1df61ab3ce624d73e8257a2ab5bd9338, 0x112bf5dc6ded04e64417c185f70299287f84af);
    e := SqBy(U, 2, e, 0x162fbe1df61ab3ce624d73e8257a2ab5bd9338, 0x49d7eec6050e8e4876e07a551e805e78e69c6, 0xe2ea2e9b8d0252e49a498643055ef4e261496);
    e := SqBy(U, 2, e, 0x49d7eec6050e8e4876e07a551e805e78e69c6, 0x21b90128cc1255450735b32f05e5ce4054499f, 0x9d1adc5ba5bb10e6ed34a6e0bb08dfc57343);
    e := SqBy(U, 2, e, 0x21b90128cc1255450735b32f05e5ce4054499f, 0x1e0470df974e12720da202f73582f8ce60dc4d, 0x20c3d34748c793a063f87ef71ff1f5427645ac);
    e := SqBy(U, 2, e, 0x1e0470df974e12720da202f73582f8ce60dc4d, 0x2258291a9827921fec22c37564b3879112d8f, 0x19f5d77793fc68814d002bcc02af133cbf6276);
    e := SqBy(U, 2, e, 0x2258291a9827921fec22c37564b3879112d8f, 0x1326ff73420a04ae015b3a1aa51af2ee036022, 0x21fbf2b4e45950ba5256d62e798924c6b619);
    e := SqBy(U, 2, e, 0x1326ff73420a04ae015b3a1aa51af2ee036022, 0x13226a8c91ee198dc33ae3dae0faef8c9c4e96, 0xa918215a782b3944e1f25db5d3a0a3021a342);
    e := SqBy(U, 2, e, 0x13226a8c91ee198dc33ae3dae0faef8c9c4e96, 0x5b9799ecbc1164f96baa5bd10a9616e228331, 0xa8c74426c887726a3370853cddebda1530d45);
    e := SqUpBy(U, 2, e, 0x5b9799ecbc1164f96baa5bd10a9616e228331, 0xe646861cb9bfed3ddee4d8276b0e2cda454d1, 0xf1b401c998016d132792309fa2b2b487ebf0);
    e := SqUpBy(U, 2, e, 0x1cc8d0c39737fda7bbdc9b04ed61c59b48a9a2, 0x852bfeb8e930fb8f12f160b193f366df5d75a, 0x17df1eb062f4f466a0d1a3cdccb2ee338f8f66);
    e := SqUpBy(U, 2, e, 0x10a57fd71d261f71e25e2c16327e6cdbebaeb4, 0x43b0f29700297cf4d98b3873ba15051c09061, 0x7fbdb23e13ece47f1c0ff162cee2a0489ff29);
    e := SqUpBy(U, 2, e, 0x8761e52e0052f9e9b31670e7742a0a38120c2, 0x14708e9a55382450cfc8a7268a82be9c4655ab, 0x2101167d6fa3980d89f0e9d40f760c31fc28f);
    e := SqBy(U, 2, e, 0x28e11d34aa7048a19f914e4d15057d388cab56, 0x7fe2185efa2daebbb6ddcb3734072de848c2, 0x3025c023023e7df2c3b199ad8ef5f40342412e);
    e := SqBy(U, 2, e, 0x7fe2185efa2daebbb6ddcb3734072de848c2, 0x412af33027fa278e3a65729bbd09669948f40, 0x1d72f9753faecece98d18924d936581dadc);
    e := SqUpBy(U, 2, e, 0x412af33027fa278e3a65729bbd09669948f40, 0x46d32b7d901a476e03843208ce4ebec5ac105, 0x7a5b8fb377b9289f296bd6f224a80a03a63d);
    e := SqBy(U, 2, e, 0x8da656fb20348edc070864119c9d7d8b5820a, 0x91a5c651685c89a958bf6f460fa19ad0783be, 0x242179b4baae02bdfba4b27c335b323d9314a);
    e := SqBy(U, 2, e, 0x91a5c651685c89a958bf6f460fa19ad0783be, 0xd9c4334f13c83cf6a4e14e3d885898da88375, 0x2632f0bc9a6dae5dc562664d353c118a9c6c9);
    e := SqBy(U, 2, e, 0xd9c4334f13c83cf6a4e14e3d885898da88375, 0x513d8994f3651c377a205bceb456906428515, 0x5564db1e706abac5eb9368fb5702058a0793c);
    e := SqUpBy(U, 2, e, 0x513d8994f3651c377a205bceb456906428515, 0x1baeb0985ca13379f5d4b9a3927d037a52638c, 0xbe27daaa5f5e136d865e69f46ccceba508db);
    e := SqUpBy(U, 2, e, 0x375d6130b94266f3eba9734724fa06f4a4c718, 0x766228dc32b3a54b8658904ef9d53ea0c3798, 0x58508712ba4891c86b6a3ae92d0cfee3d21f98);
    e := SqBy(U, 2, e, 0xecc451b865674a970cb1209df3aa7d4186f30, 0x1cb79367244349c2c9044e638b2fecfc44458d, 0x64f2115672efe2f70a1280a89520aefdf7485);
    e := SqUpBy(U, 2, e, 0x1cb79367244349c2c9044e638b2fecfc44458d, 0x205c1a165a135e71311c65c23811a59b353a9b, 0x17c28f0ee0fd95a026acab367890918b0ae122);
    e := SqUpBy(U, 2, e, 0x40b8342cb426bce26238cb8470234b366a7536, 0x124ebda52b3928f59a0305ba3e1eb410a4c422, 0x78ae2737ebfe273c9082a42c30c5823f82530e);
    e := SqUpBy(U, 2, e, 0x249d7b4a567251eb34060b747c3d6821498844, 0x1b2249deb4a84f0fc9419b503239c9e151191e, 0x26a06dd69921394b11c9068a1ef290362e00de);
    e := SqUpBy(U, 2, e, 0x364493bd69509e1f928336a0647393c2a2323c, 0x4296a9224fe17c9f22cb9f5c5d1c622477bf6, 0x54d9901db536373330ab1b35af879db599b5f6);
    e := SqBy(U, 2, e, 0x852d52449fc2f93e45973eb8ba38c448ef7ec, 0x10d23dfb64a411ad3a39ea57559f205e435c54, 0x1ff00f69c71fbad3bffb4c0985e04a5c28424);
    e := SqBy(U, 2, e, 0x10d23dfb64a411ad3a39ea57559f205e435c54, 0xdf6fc5eb649bdcb826a23e7b386d69e02de4f, 0x826ffd9d3c2ae68e1d3ed562588a8f8a86ee7);
  }

  lemma ChainU_3()
    ensures Cong(Power(2, 0x115aacdae40b5700791bc70c6f9c62a), 0x1ab7dd31acba0259103607f4277a9a927c6fd8, U)
  {
    hide Cong, Power;
    ChainU_2();
    var e := 0x115aacdae40b5700791bc;
    e := SqBy(U, 2, e, 0xdf6fc5eb649bdcb826a23e7b386d69e02de4f, 0x19467d68ce3113f1308c9d32e285b0c8162d84, 0x59e61a98133ac5cba68738c4ad7ae7fbe35ab);
    e := SqUpBy(U, 2, e, 0x19467d68ce3113f1308c9d32e285b0c8162d84, 0xe32e397c14231413c9036a57eb64f60a7f216, 0x1267f0ac99e9b2dcf916a6b81ba8337de37916);
    e := SqUpBy(U, 2, e, 0x1c65c72f8284628279206d4afd6c9ec14fe42c, 0xbb18360c234395c804ddcf6f02813bf18c497, 0x173bf4bab021b8b28b3dd1a3e5ecebf632fdef);
    e := SqUpBy(U, 2, e, 0x176306c1846872b9009bb9ede050277e31892e, 0x11fcb3e22eba987ec7538fc603d090d936f60f, 0xfc21c464803468415d55d87b9efe35394ac13);
    e := SqBy(U, 2, e, 0x23f967c45d7530fd8ea71f8c07a121b26dec1e, 0xf6e048c12ad95b4596d42f11d7ffc89d5fb02, 0x2549475caf88608e50ee55cee24eb3aeb76fce);
    e := SqBy(U, 2, e, 0xf6e048c12ad95b4596d42f11d7ffc89d5fb02, 0x1a700f26ddaa44ec612add574b70aa1cbdaf03, 0x6dbfefd9c74d1ced8804348017806eaf94527);
    e := SqBy(U, 2, e, 0x1a700f26ddaa44ec612add574b70aa1cbdaf03, 0x16a2ee6a53bacd6d1b278ee4cd1f74dc560e74, 0x14234c2b277872c0b0b26fda59a3d8a71445b3);
    e := SqBy(U, 2, e, 0x16a2ee6a53bacd6d1b278ee4cd1f74dc560e74, 0xce90f4c2b2c253c977ba927e1a94b2e391477, 0xec3648a74743999868d3f85dd95583c411dcf);
    e := SqUpBy(U, 2, e, 0xce90f4c2b2c253c977ba927e1a94b2e391477, 0x4a497fe1ef4e74bebb1c8988700379aaca0d, 0x4cd5fc73fd860305b0f8b56d9868eecff355c);
    e := SqUpBy(U, 2, e, 0x9492ffc3de9ce97d76391310e006f355941a, 0x1cdea2c29e7ac09f758edeaa647b1ee4b8156c, 0x27bfe3146a8f394c3ca91f613d6d15e4388);
    e := SqBy(U, 2, e, 0x39bd45853cf5813eeb1dbd54c8f63dc9702ad8, 0x18da894e9c2fa5d55d6a7dd8a2f60ad17f76d6, 0x600d76569c872e3420b635b230107688d64d26);
    e := SqBy(U, 2, e, 0x18da894e9c2fa5d55d6a7dd8a2f60ad17f76d6, 0x643f3420338cf5ada783e09bc38daaafcece0, 0x11cc061e02515766274131fa75c66ebbb90a9c);
    e := SqBy(U, 2, e, 0x643f3420338cf5ada783e09bc38daaafcece0, 0xb9dde0735b8dba0d92f03c3957daddeb96256, 0x1218a022b402e8159d3c37f51db184c0ae4e6);
    e := SqUpBy(U, 2, e, 0xb9dde0735b8dba0d92f03c3957daddeb96256, 0x17bfed4727a379bbc3ede828c26692491fcf7d, 0x3e3555e7e3b4efb8473e0414323f3ef1248b1);
    e := SqUpBy(U, 2, e, 0x2f7fda8e4f46f37787dbd05184cd24923f9efa, 0x7b2bec3982ef9ace34e6b9f074cc5e6a2579d, 0x41011ab05581102257c73869adc433bc50d691);
    e := SqBy(U, 2, e, 0xf657d87305df359c69cd73e0e998bcd44af3a, 0x13daf940423224906ea29b8291d4e5a0418aa3, 0x6d46c256bbe3854cfbc588ca09bd3cf136fa7);
    e := SqUpBy(U, 2, e, 0x13daf940423224906ea29b8291d4e5a0418aa3, 0x1f4280003c18494c9dacaff39e4b5a0799cbf4, 0xb5bc7025cc6ea064f936e347fd64cbd8b6373);
    e := SqUpBy(U, 2, e, 0x3e850000783092993b595fe73c96b40f3397e8, 0x11d34c47957e52d92f1d13583de602a96352bd, 0x709d7aab8a9e53ec2f8eb3a72b2dfcdf052af5);
    e := SqUpBy(U, 2, e, 0x23a6988f2afca5b25e3a26b07bcc0552c6a57a, 0x13887b44379055cd8ada9556291aba2522ae14, 0x249e6437ec0ed438bbe74d657adee869fc5270);
    e := SqUpBy(U, 2, e, 0x2710f6886f20ab9b15b52aac5235744a455c28, 0x142d6738d56f3ea306f36228b3f21e50173ae1, 0x2bf8a5dd2e0b0c311b9d7910b27effda3b0179);
    e := SqUpBy(U, 2, e, 0x285ace71aade7d460de6c45167e43ca02e75c2, 0x1f760226b48df8e4bd679a8e7d108374f13127, 0x2eeb6838577cff1305a82a674ae717572486ab);
    e := SqBy(U, 2, e, 0x3eec044d691bf1c97acf351cfa2106e9e2624e, 0x13624057c2517493a5cd6eca0a78fc07bc2f0e, 0x7211cc33b06efb5b95a99a4dd2b282fd9737ba);
    e := SqBy(U, 2, e, 0x13624057c2517493a5cd6eca0a78fc07bc2f0e, 0x182689354f4bfb23988def3a3a1c9773f7d82a, 0xad34bd73ad147f1178d6e89296f3c19bc0f76);
    e := SqUpBy(U, 2, e, 0x182689354f4bfb23988def3a3a1c9773f7d82a, 0xd3cc400e0af180c251fddfca60750e51d7598, 0x10cde26c8f81f19c37ec4f3d5e1ee673a87a94);
    e := SqUpBy(U, 2, e, 0x1a798801c15e30184a3fbbf94c0ea1ca3aeb30, 0x5a5a0da822226e7a992b26a10af2850592729, 0x1431bcd35b922e1f3e8c648dd13a3c133c3dc1);
    e := SqUpBy(U, 2, e, 0xb4b41b504444dcf532564d4215e50a0b24e52, 0x201f845cd5ff2f6f643bb1acf0948d89b0d32f, 0x3accd972c5461820af0681fe28e25a9571e33);
    e := SqBy(U, 2, e, 0x403f08b9abfe5edec8776359e1291b1361a65e, 0xddc612f823d64fa8085d25b3b5e959a8812b3, 0x76ebec7498b7e6d0a3202f93c564449b96dad7);
    e := SqBy(U, 2, e, 0xddc612f823d64fa8085d25b3b5e959a8812b3, 0x7390ded7f705006747faf5bed7baaae6ac770, 0x5890d26a31a6f2d32882089e70651e6170d2f);
    e := SqBy(U, 2, e, 0x7390ded7f705006747faf5bed7baaae6ac770, 0x150d5590f3af3b6837f076eb14b6af4856ef04, 0x180ca79ee535d4395dd14feaf20774ad70564);
    e := SqUpBy(U, 2, e, 0x150d5590f3af3b6837f076eb14b6af4856ef04, 0xd8cfdc9bf9c12645ac3cc051cf4c4b57bcdd0, 0xcc4daeba15d1169bff0708e822a3282606fc0);
    e := SqUpBy(U, 2, e, 0x1b19fb937f3824c8b587980a39e9896af79ba0, 0x420e0c5de3b4174a36b2f5383f7a6e3faae1e, 0x1529697a170cdd5a8087cbfce9a3e70600a96e);
    e := SqBy(U, 2, e, 0x841c18bbc7682e946d65ea707ef4dc7f55c3c, 0xe8296e32ead9c77a7591da0758ff87eaf0c5f, 0x1f6d89fc1cdf8ea48d0867911950f9fbffbf7);
    e := SqBy(U, 2, e, 0xe8296e32ead9c77a7591da0758ff87eaf0c5f, 0x2169d4c4fa2f5b7be2c2d45e0ff15665a335b8, 0x610e9ad7272a69b00f346c35b1dbe104151df);
    e := SqBy(U, 2, e, 0x2169d4c4fa2f5b7be2c2d45e0ff15665a335b8, 0x1ccc1091b90bba35d4617b95ffecc4021a4157, 0x202aae5ac9c81c8f1410a4be4e769159de0b7f);
    e := SqUpBy(U, 2, e, 0x1ccc1091b90bba35d4617b95ffecc4021a4157, 0x248ee7145db5b6a3753f2561894d788ffc2e0, 0x17e482a964a5435a0087e650b1511658b8acf7);
    e := SqBy(U, 2, e, 0x491dce28bb6b6d46ea7e4ac3129af11ff85c0, 0x347b4abbc46e1d3cf4c1cad9d3b2d098718b6, 0x9a06c5e185677078ad9da53abbe5f3a2f046);
    e := SqUpBy(U, 2, e, 0x347b4abbc46e1d3cf4c1cad9d3b2d098718b6, 0x1df447825050e35d960ec066d83f7e0955a23c, 0x4f5b21dbebe33933f7f9fbc2e4483813ef18);
    e := SqBy(U, 2, e, 0x3be88f04a0a1c6bb2c1d80cdb07efc12ab4478, 0x1be00bb7b6fab30aa456ee4395b6623fe0050f, 0x6767aa938bf786e557407eba557fb08f53e677);
    e := SqUpBy(U, 2, e, 0x1be00bb7b6fab30aa456ee4395b6623fe0050f, 0x1d58f9bf1ba5e993a478d79df62c97a0eb3185, 0x166322bebd0ac3a5e2906f71a619af4d6d4904);
    e := SqBy(U, 2, e, 0x3ab1f37e374bd32748f1af3bec592f41d6630a, 0x1ab7dd31acba0259103607f4277a9a927c6fd8, 0x634246af71e66f4db67c305f252b97f9406154);
  }

  /** Fermat's condition for U. */
  lemma ChainU()
    ensures Cong(Power(2, U - 1), 1, U)
  {
    hide Cong, Power;
    ChainU_3();
    var e := 0x115aacdae40b5700791bc70c6f9c62a;
    e := SqBy(U, 2, e, 0x1ab7dd31acba0259103607f4277a9a927c6fd8, 0x219b11653190f6263f3b80a8610e3bcb708f21, 0x14914448f1e608a8928fb0303d360637826bb9);
    e := SqBy(U, 2, e, 0x219b11653190f6263f3b80a8610e3bcb708f21, 0x16a501721f635e78d63ace9320ffb3bf029869, 0x2089c0e052ed2bd7e03e403649693479fd2fe8);
    e := SqBy(U, 2, e, 0x16a501721f635e78d63ace9320ffb3bf029869, 0xdca10a73ebe76c9e8515fd5592c26a6fd4fc9, 0xec61954651cbf9a968e71c80b03db68ee87f8);
    e := SqBy(U, 2, e, 0xdca10a73ebe76c9e8515fd5592c26a6fd4fc9, 0x1ce1cb0263dfe7d91d6a751a4c4f9da04f9a4e, 0x57a76118823746eac1f53ba7e8b322b4c98f5);
    e := SqUpBy(U, 2, e, 0x1ce1cb0263dfe7d91d6a751a4c4f9da04f9a4e, 0x11186ed3ead612213662d7a537cc448fbdb9b2, 0x18089e7057b02142155da4e78a698a9d5dd0be);
    e := SqBy(U, 2, e, 0x2230dda7d5ac24426cc5af4a6f98891f7b7364, 0x3034753be7839c8bf1403c985514fc8529049, 0x21ae5b4e0846367dba73f752de206f545f3651);
    e := SqBy(U, 2, e, 0x3034753be7839c8bf1403c985514fc8529049, 0x11e33975fbc2f631a6836cfcd0f8fea9d11219, 0x42f3196416e51d0c994db14f73cb39affa08);
    e := SqBy(U, 2, e, 0x11e33975fbc2f631a6836cfcd0f8fea9d11219, 0x81fcc7de01ac2a24a0abded3d6ea4b5248034, 0x937fc3e443eb9f2474f7b857e4f349523854b);
    e := SqBy(U, 2, e, 0x81fcc7de01ac2a24a0abded3d6ea4b5248034, 0x1aad74b525dc9ef27d5f57c6beba3934557321, 0x1e6d1d36ed380b16d8eb3ed14a32b479377e9);
    e := SqUpBy(U, 2, e, 0x1aad74b525dc9ef27d5f57c6beba3934557321, 0x1cee85ce82794cd2452781baa4f93808de4363, 0x14814135c10bd6771327a46068d2988f5277d2);
    e := SqUpBy(U, 2, e, 0x39dd0b9d04f299a48a4f037549f27011bc86c6, 0x8e08a3b5982b154c40186ee198e947789e547, 0x60774a73b04cc1547e45bf3da1a153438330ab);
    e := SqUpBy(U, 2, e, 0x11c11476b30562a988030ddc331d28ef13ca8e, 0x16b0233c8a243b6e9fc5618f03068e7689feea, 0x914ec2c9596aae41856ae2549db3af74cb636);
    e := SqBy(U, 2, e, 0x2d604679144876dd3f8ac31e060d1ced13fdd4, 0x13ebe6cad89b9d622e216e779d27ed0d054f5a, 0x3b528dbfa45cc496fb21112ed45976799d9c3a);
    e := SqUpBy(U, 2, e, 0x13ebe6cad89b9d622e216e779d27ed0d054f5a, 0x210d2949eda21b7b5c7a7c2049c84f8a46c773, 0xb6f2d604d0027a15f789c7ee0cb671f059d77);
    e := SqUpBy(U, 2, e, 0x421a5293db4436f6b8f4f84093909f148d8ee6, 0x1695c9a0f28ae209cd185a67298b820b134370, 0x7de4e466d5b810d0136305c1244e55b7d014ec);
    e := SqBy(U, 2, e, 0x2d2b9341e515c4139a30b4ce531704162686e0, 0x9861bd94488cb5a5f406222c18162009bf146, 0x3ac9123f62b726f7b69bbfff27c032ed4b3e56);
    e := SqUpBy(U, 2, e, 0x9861bd94488cb5a5f406222c18162009bf146, 0xb44767985ab5b388c646117b0266053f15a61, 0x29d02293761ef254af61f63201d70ac63a7b5);
    e := SqBy(U, 2, e, 0x1688ecf30b56b67118c8c22f604cc0a7e2b4c2, 0x1b0e71c7f7255cf3d8ce4c7a30d8bad202c555, 0xea18c2b2a22558de823131f116527c846eba9);
    e := SqUpBy(U, 2, e, 0x1b0e71c7f7255cf3d8ce4c7a30d8bad202c555, 0x18c9d941b3e4215e0127bba891dbca058b0902, 0x1517687751c1e3b002d04947c77bf058dea161);
    e := SqBy(U, 2, e, 0x3193b28367c842bc024f775123b7940b161204, 0x17f7011e9041acb8529940de39fc8bee5d7ea1, 0x46d09fda1a45092016e7a0bea6dcd0e9720de9);
    e := SqUpBy(U, 2, e, 0x17f7011e9041acb8529940de39fc8bee5d7ea1, 0x22909acb5fa82d0b85087560e753649bc9157, 0x108bfe1ae6a1f8aba85823d55e2a94fd26b0a6);
    e := SqUpBy(U, 2, e, 0x45213596bf505a170a10eac1cea6c937922ae, 0x7ca7bad6a30cc3f7367063226fa5414abc64f, 0x89b00b203fb1658dec218720f81bf96e9853);
    e := SqBy(U, 2, e, 0xf94f75ad461987ee6ce0c644df4a829578c9e, 0xe44eda7329aeee16df786f878793406ac4ce3, 0x6fecbd242150a5bcffa0eaeed2fb99aac0e87);
    e := SqBy(U, 2, e, 0xe44eda7329aeee16df786f878793406ac4ce3, 0x21d7636c380b7a2831712db1b55503a09131c9, 0x5ddc8f16256c481dac71c2c892cd65ff38c80);
    e := SqUpBy(U, 2, e, 0x21d7636c380b7a2831712db1b55503a09131c9, 0x21f7c11567c36992fda569c562ffb59f4cfbff, 0x20fef89832be82c01c9ee79f4b25a5450698fe);
    e := SqBy(U, 2, e, 0x43ef822acf86d325fb4ad38ac5ff6b3e99f7fe, 0xb5bce58d5928338c352173b2026858f127cd6, 0x84f8d08a239c4af757f2d92497fca32dc6c802);
    e := SqUpBy(U, 2, e, 0xb5bce58d5928338c352173b2026858f127cd6, 0xd5f5318c8df80ba92fc90795749dfba63e9db, 0x3b79aa6ebe643ea59352b4f7dd23877da9a5f);
    e := SqUpBy(U, 2, e, 0x1abea63191bf017525f920f2ae93bf74c7d3b6, 0x115aacdae40b5700791bc70c6f9c62a0876acc, 0x149bb7dd7b250623d49aba260cdc8f150a7d28);
    e := SqBy(U, 2, e, 0x22b559b5c816ae00f2378e18df38c5410ed598, 1, 0x22b559b5c816ae00f2378e18df38c5410ed599);
  }

  lemma ChainU_V_1()
    ensures Cong(Power(2, 0x1b23b10d064), 0x3fe29d423fb102339252f0281fcd6aaa0feb6, U)
  {
    hide Cong, Power;
    Start(2, U);
    var e := 1;
    e := SqUpBy(U, 2, e, 2, 4, 0);
    e := SqBy(U, 2, e, 8, 0x40, 0);
    e := SqUpBy(U, 2, e, 0x40, 0x1000, 0);
    e := SqUpBy(U, 2, e, 0x2000, 0x4000000, 0);
    e := SqBy(U, 2, e, 0x8000000, 0x40000000000000, 0);
    e := SqBy(U, 2, e, 0x40000000000000, 0x1000000000000000000000000000, 0);
    e := SqUpBy(U, 2, e, 0x1000000000000000000000000000, 0x137f7811e43405268298f7e52b64b026255171, 0x760303dd850303dc9);
    e := SqBy(U, 2, e, 0x26fef023c8680a4d0531efca56c9604c4aa2e2, 0x11f899196cff87367950c69eb05a47513b8580, 0x2bd01bb48fb689a8357c9bdf7e927a47fc2e9c);
    e := SqBy(U, 2, e, 0x11f899196cff87367950c69eb05a47513b8580, 0x15b410aa8f9063a06711b30389fc8c1011cf5a, 0x94e11380938b80a8b7c158255192a84f7454a);
    e := SqBy(U, 2, e, 0x15b410aa8f9063a06711b30389fc8c1011cf5a, 0x50e4c58c87ffa495618cdd5bae6a5124129f8, 0xd923e00ce00e15fec8d4cf5bf18496af8b934);
    e := SqUpBy(U, 2, e, 0x50e4c58c87ffa495618cdd5bae6a5124129f8, 0xe98dbee5cb03a7842e7eabb0d6c038ce0c119, 0xbc893373a3c65ed671e8ed63ea9e1ebc54f1);
    e := SqUpBy(U, 2, e, 0x1d31b7dcb96074f085cfd5761ad80719c18232, 0x1a564368393d7aaf4d0a0508800be4f1b1412f, 0x188e5ac9b89d4a79e7e9267735d0c659be88b3);
    e := SqUpBy(U, 2, e, 0x34ac86d0727af55e9a140a110017c9e362825e, 0xbc8072ae3f80e2a0597001dd370a930f23f4, 0x4ff04c42f3c6062d8bbc622adc8bd659eeaff0);
    e := SqBy(U, 2, e, 0x17900e55c7f01c540b2e003ba6e15261e47e8, 0x1989a29fe2dacd2f62e49ca5a85a63d1f85043, 0xfff0575f1f0e191761500f374571c06af8b);
    e := SqUpBy(U, 2, e, 0x1989a29fe2dacd2f62e49ca5a85a63d1f85043, 0x59f3bfa37a33b84ddb32b362341e95fe4955a, 0x12ca3da1997b18b880061674c789a0beaef129);
    e := SqUpBy(U, 2, e, 0xb3e77f46f467709bb66566c4683d2bfc92ab4, 0x251ca383405b3dd4c8f7a75b6eddc5dac3abb, 0x3a47fc5622c75d3cbe93d035cf6973bffc773);
    e := SqBy(U, 2, e, 0x4a39470680b67ba991ef4eb6ddbb8bb587576, 0x1ffecd73aa925947c54ed4656e7a822e376a66, 0x9eba230231e30c76b350fec049fd5132a3b2);
    e := SqBy(U, 2, e, 0x1ffecd73aa925947c54ed4656e7a822e376a66, 0x16d823360348b5f969b4ea33fd37bd3041a57, 0x1d7e8bc0c61e0ea5b908769c1d873636aba7bb);
    e := SqBy(U, 2, e, 0x16d823360348b5f969b4ea33fd37bd3041a57, 0x4f78a882dfc3932083aa26e37ace39a07f4d3, 0xf091cc7bd3ae2eef2f135ecd8107e14f4f2);
    e := SqUpBy(U, 2, e, 0x4f78a882dfc3932083aa26e37ace39a07f4d3, 0x1a2194f869dcf495d685377f99b69696fa6799, 0xb5f6de94eb867dc0a42236ebc580400b5e30);
    e := SqBy(U, 2, e, 0x344329f0d3b9e92bad0a6eff336d2d2df4cf32, 0x15d90cdeedebadeff3b0e26993b0e82ae9e9f2, 0x4eb1bf51dd219b8b5982180f918ca81b4270fe);
    e := SqBy(U, 2, e, 0x15d90cdeedebadeff3b0e26993b0e82ae9e9f2, 0x6c1f840e584e1fea0c4f2414c6109fd1d858, 0xdc0a678246ed73dd38d9ce9ded0e69a237874);
    e := SqBy(U, 2, e, 0x6c1f840e584e1fea0c4f2414c6109fd1d858, 0xe2e4e2cc3f96c1106fa99eb801db2aebef7eb, 0x150d2d45fd443c5d5a69c31b0ef378358f3);
    e := SqBy(U, 2, e, 0xe2e4e2cc3f96c1106fa99eb801db2aebef7eb, 0x1647be9e6ae2cc92dc3ea4ffb4764afbdf21bb, 0x5cb3db9bf1989778aced24be8a3e84f895bb2);
    e := SqUpBy(U, 2, e, 0x1647be9e6ae2cc92dc3ea4ffb4764afbdf21bb, 0x91f66b78126ddb1f28469504f219c64dada97, 0xe4d62f4a4fb94d932314ffaa71b9a589cb04e);
    e := SqUpBy(U, 2, e, 0x123ecd6f024dbb63e508d2a09e4338c9b5b52e, 0x4c8471db0b30a8178859240eed5d7f03825d7, 0x9975269f7a3cc02112949415053896c2dc49b);
    e := SqBy(U, 2, e, 0x9908e3b61661502f10b2481ddabafe0704bae, 0x1792b93649395af2dfea7a15c59bca36c610d4, 0x2a2c0fcee137a2bf0b18350f6eb3f05f40010);
    e := SqUpBy(U, 2, e, 0x1792b93649395af2dfea7a15c59bca36c610d4, 0x84a70da879853fe81088349cdcd7c81a10e8, 0x1002a4d813a7c3b36b2a195eec3fce2c6bbb98);
    e := SqBy(U, 2, e, 0x1094e1b50f30a7fd021106939b9af903421d0, 0x2a359bd2701da512072560dffd9c61bb2f2f1, 0x7ebf2734713c94c36577d658bd52edbc249);
    e := SqBy(U, 2, e, 0x2a359bd2701da512072560dffd9c61bb2f2f1, 0x37ddaea4ee9d5f2a066d3433fff535ba27755, 0x3354dd1b89d6307665ea07fa9b5a4a731654);
    e := SqBy(U, 2, e, 0x37ddaea4ee9d5f2a066d3433fff535ba27755, 0xac4dc884a73bdf4e4accd0b4f9f96c5003d3b, 0x59ebb38ff33d43237be75b9ebf366d57eeb2);
    e := SqBy(U, 2, e, 0xac4dc884a73bdf4e4accd0b4f9f96c5003d3b, 0x1038ce350e92f062a0b65f732ce857c22d69a4, 0x3575f6118cd8564b01ba976e1cdb0269fce53);
    e := SqBy(U, 2, e, 0x1038ce350e92f062a0b65f732ce857c22d69a4, 0x1a6f9d86ff219aee6ff121756d2263c1db661e, 0x794eca5ce63ebd6786c6e40d8374b08b17ede);
    e := SqUpBy(U, 2, e, 0x1a6f9d86ff219aee6ff121756d2263c1db661e, 0x319c98a68f1a07cde3fd643665fe01b37cc8c, 0x14229f1392908d8bc6b19c85ef51b8b66ae7c8);
    e := SqUpBy(U, 2, e, 0x6339314d1e340f9bc7fac86ccbfc0366f9918, 0x2117e3fbd66a050deb4f498e23f534c42dfd39, 0x11ba838fbd0929e879aa96a338ba700b56a11);
    e := SqBy(U, 2, e, 0x422fc7f7acd40a1bd69e931c47ea69885bfa72, 0x15c23d9411f35e5624d80b51cf8cc9c116fb2f, 0x7e36ae3446f3c9d76864dd88b2a264481291b3);
    e := SqBy(U, 2, e, 0x15c23d9411f35e5624d80b51cf8cc9c116fb2f, 0x8e1e522788ec564db9ab52178626ab6352bc3, 0xda3fe27cbd34ce566481c7aeb87836e51d7d2);
    e := SqUpBy(U, 2, e, 0x8e1e522788ec564db9ab52178626ab6352bc3, 0x1da227a0e68393641178d2c353929c4975deda, 0x245ec8bc35fd898e2d15e24a415388e8661a9);
    e := SqBy(U, 2, e, 0x3b444f41cd0726c822f1a586a7253892ebbdb4, 0x1a314fa938384910cf931333162a4dd747e4ec, 0x6533b2c60181cae0940b2db85323527d7e07fc);
    e := SqBy(U, 2, e, 0x1a314fa938384910cf931333162a4dd747e4ec, 0x3fe29d423fb102339252f0281fcd6aaa0feb6, 0x13c4262b4b1bd60d676c59f08c3f315055db36);
  }

  lemma ChainU_V_2()
    ensures Cong(Power(2, 0x1b23b10d0642d88a85680), 0x1ce643660909f9febc64c211b2c7875a9f516c, U)
  {
    hide Cong, Power;
    ChainU_V_1();
    var e := 0x1b23b10d064;
    e := SqBy(U, 2, e, 0x3fe29d423fb102339252f0281fcd6aaa0feb6, 0x17419bf4b5abd3f4788b2c954b0287e536457f, 0x7596bdde19907588c27fc987c62291f5d9e3);
    e := SqBy(U, 2, e, 0x17419bf4b5abd3f4788b2c954b0287e536457f, 0x13bec814f6a530a6c403df133e6ccbcecdc550, 0xf9533d9ea88e8cd3d5fd1079b71dc62a45df7);
    e := SqUpBy(U, 2, e, 0x13bec814f6a530a6c403df133e6ccbcecdc550, 0x183360ed9fdc37831e60a2d0b21da49f0475d5, 0xb3b9c9177b422cb7dc134d1261dd1f8e6b98d);
    e := SqBy(U, 2, e, 0x3066c1db3fb86f063cc145a1643b493e08ebaa, 0x12361780c88faacf2b2a9083dd13fb98b582a5, 0x437f19cab1085fd9d44fed36f37a6ceb6f1599);
    e := SqUpBy(U, 2, e, 0x12361780c88faacf2b2a9083dd13fb98b582a5, 0x54fd3f085ebcbec55403f87dc33ecff39ec87, 0x98e2c2a2253eac6812db1a62fabeeaaf5cafe);
    e := SqUpBy(U, 2, e, 0xa9fa7e10bd797d8aa807f0fb867d9fe73d90e, 0x1cc937f054b2c290cce6a75d297657ddfe36b1, 0x34070d3518aaf1214cd76ac78a3dad8dcfae5);
    e := SqBy(U, 2, e, 0x39926fe0a965852199cd4eba52ecafbbfc6d62, 0x133afe4216f3f7d15ba8c201d738c5a91596dd, 0x5f7f274ba4dea87b5d8bc0c161c779a9407d71);
    e := SqUpBy(U, 2, e, 0x133afe4216f3f7d15ba8c201d738c5a91596dd, 0x9fa19c6b6563eb7ba648b1efe2a0e686dd347, 0xaa79eca84e41aeb007c7796c0f969fee538ce);
    e := SqUpBy(U, 2, e, 0x13f4338d6cac7d6f74c9163dfc541cd0dba68e, 0xd1769f8c1817212eafce2d6069b45bd9bd498, 0xb78b6726cdcf9b2fcd3f74b2e1f922903acb4);
    e := SqBy(U, 2, e, 0x1a2ed3f18302e425d5f9c5ac0d368b7b37a930, 0x131d50f40b95124107fd498186223e6b71fdbc, 0x13c066dc609671bfffd07b01fb0c8173e2bf5c);
    e := SqBy(U, 2, e, 0x131d50f40b95124107fd498186223e6b71fdbc, 0x1abac1e6e70b5e890358d737ddd2f35a16d25a, 0xa86d57b5028e86cbd325b9fc8a5d2c845e0ba);
    e := SqBy(U, 2, e, 0x1abac1e6e70b5e890358d737ddd2f35a16d25a, 0x12f6b4f400d6519adf0bac416bf6ce64fe0b61, 0x1495b8e82cbd4797af096c820c16e309951c35);
    e := SqUpBy(U, 2, e, 0x12f6b4f400d6519adf0bac416bf6ce64fe0b61, 0x1d8d2d739363bdcf3ce3e5ae3ad7bb209a4aa7, 0xa5c79d9c4ed5f6128f95b7a72afe5ca85b7f6);
    e := SqBy(U, 2, e, 0x3b1a5ae726c77b9e79c7cb5c75af764134954e, 0x1f0d3c0ae24feac56fbfca14bb6d72b6d6b62f, 0x64a49dca62acdaad55a73ee57506ef199d73b3);
    e := SqBy(U, 2, e, 0x1f0d3c0ae24feac56fbfca14bb6d72b6d6b62f, 0xacda8b50001cdf6a044c8949b04dc3232310a, 0x1bc7be3d1bfb795786d37e8a016f60790b9a01);
    e := SqBy(U, 2, e, 0xacda8b50001cdf6a044c8949b04dc3232310a, 0x3975660ead46528987cfb4ce374728ff2130e, 0x35cd72cf2813d359e9eb27fab15c8b5b1701a);
    e := SqUpBy(U, 2, e, 0x3975660ead46528987cfb4ce374728ff2130e, 0x6667cb29074015477f95c5f25aea450431326, 0x5f1eea1f4f466b49d211bdf5141dc5c48b12);
    e := SqBy(U, 2, e, 0xcccf96520e802a8eff2b8be4b5d48a086264c, 0xff6d5044cd897415fe2a1f792e592199b7866, 0x4b891b006faef5682a7b2a2acc823eeb50c66);
    e := SqUpBy(U, 2, e, 0xff6d5044cd897415fe2a1f792e592199b7866, 0x56ad4cca2b39e9fb30aa4359eccf4bf2e1334, 0x757bed275779eef345a3fb65b6317ab1e0410);
    e := SqBy(U, 2, e, 0xad5a99945673d3f6615486b3d99e97e5c2668, 0x101532db27c2d84f6672e0558f494a2b2ab9b1, 0x361d47fd87e72758b4ee788ea199f8087ebc9);
    e := SqUpBy(U, 2, e, 0x101532db27c2d84f6672e0558f494a2b2ab9b1, 0x2a50cdbbb0ed561e79ea95dc06f7f8a2f74c8, 0x773c8923dd84872a1904a7a9e72ddedb7424f);
    e := SqBy(U, 2, e, 0x54a19b7761daac3cf3d52bb80deff145ee990, 0xce50a8f7d8224a68a55e7d8534661ce7ebbe1, 0xce5c5d8b206d1f6b00c618dc14c1714bddb9);
    e := SqBy(U, 2, e, 0xce50a8f7d8224a68a55e7d8534661ce7ebbe1, 0x1be10efb9ac82098688e3d985411186b3cb3a, 0x4ca62ee36a81163cdbd314d1dd7df9b0cba91);
    e := SqBy(U, 2, e, 0x1be10efb9ac82098688e3d985411186b3cb3a, 0xd5fdecbd882bbf46a3b0df59ebfaa0af1b0e6, 0x1664c33821dec032bdbb6e9f3d1c4462fd72);
    e := SqBy(U, 2, e, 0xd5fdecbd882bbf46a3b0df59ebfaa0af1b0e6, 0x11fb47367df404845acd72568b68f039ec8f94, 0x527599ef6d167d12f6895538e51102aacfb70);
    e := SqUpBy(U, 2, e, 0x11fb47367df404845acd72568b68f039ec8f94, 0x1ee813799e7f028722558b277de7f1ce91508, 0x950d7edb35e8a04edb666c2e820f2b2d70cb8);
    e := SqBy(U, 2, e, 0x3dd026f33cfe050e44ab164efbcfe39d22a10, 0x1e48423694d9af34ee7249c5c1f40c057eb085, 0x6e15a51ca0236f3089191fb3e4facf9c20bd);
    e := SqUpBy(U, 2, e, 0x1e48423694d9af34ee7249c5c1f40c057eb085, 0x15a592e16650599de8302f304ee284f38b101f, 0x1a6ba9acc9b37f7b11fb6b00d61cd8f4975616);
    e := SqBy(U, 2, e, 0x2b4b25c2cca0b33bd0605e609dc509e716203e, 0x1cade630abb4c078f895812ff51cf25fe67d48, 0x3600923247460e77f9735d6e6ef68482cb4ba4);
    e := SqUpBy(U, 2, e, 0x1cade630abb4c078f895812ff51cf25fe67d48, 0x6ae31b9cea161c7fcd8586965dbd8e0e8e316, 0x17b28e8e21ebcdff163fb81065cc4f8b50b166);
    e := SqUpBy(U, 2, e, 0xd5c63739d42c38ff9b0b0d2cbb7b1c1d1c62c, 0x1b8f16f127db4ac59abc070122322ded9e86ee, 0x524ab07e73d7fbfd0ba7ff08589a4080b3cae);
    e := SqBy(U, 2, e, 0x371e2de24fb6958b35780e0244645bdb3d0ddc, 0x1b76aa25795144c90c91764082afbf5477a6af, 0x578759a18075c2e2f7c8aad5e36e51bed38ac7);
    e := SqUpBy(U, 2, e, 0x1b76aa25795144c90c91764082afbf5477a6af, 0x12e0b530ac6b676f545b2e4fcb4ae9ada73467, 0x15bb1dfc5b0a3f9071c0704566fea040a50dd6);
    e := SqBy(U, 2, e, 0x25c16a6158d6cedea8b65c9f9695d35b4e68ce, 0xeb8b90382c531443c223aaf3f615103db0fa5, 0x2911f6e00c43eb4de98d4e8ab4397addf3c4b9);
    e := SqBy(U, 2, e, 0xeb8b90382c531443c223aaf3f615103db0fa5, 0xcb9597886ae5a34193836f146d433c7f18bac, 0x63e8119c2f23d829ef557e4dc45b34307f85b);
    e := SqBy(U, 2, e, 0xcb9597886ae5a34193836f146d433c7f18bac, 0xd7cf66eabb5ec559b2b93844fab990406ebb3, 0x4aa2312a40369aca1dac62e815b1b6f84fcab);
    e := SqBy(U, 2, e, 0xd7cf66eabb5ec559b2b93844fab990406ebb3, 0xf1e6d03cdde6a112d9d60711a140139fea7bd, 0x53dddbb740e61607de3efc2eb510d9182a974);
    e := SqBy(U, 2, e, 0xf1e6d03cdde6a112d9d60711a140139fea7bd, 0x134abe5983610c4a832efdbf7f48ac3031c9b4, 0x695f175da6748990e252ce08b0a7bad596373);
    e := SqBy(U, 2, e, 0x134abe5983610c4a832efdbf7f48ac3031c9b4, 0xbd0dc144288795e7dd746e813fab9d25825ff, 0xab919f535bdb1aa56ce90782eb5ba7a09b017);
    e := SqBy(U, 2, e, 0xbd0dc144288795e7dd746e813fab9d25825ff, 0x1ce643660909f9febc64c211b2c7875a9f516c, 0x405c27e06c8fb9be6c5234f63df4ff91886b3);
  }

  /** The witness of V for U. */
  lemma ChainU_V()
    ensures Cong(Power(2, 0x3647621a0c85b1150ad0194a), 0xac1f69987a98cd70795a5538e728fc5b374b2, U)
  {
    hide Cong, Power;
    ChainU_V_2();
    var e := 0x1b23b10d0642d88a85680;
    e := SqUpBy(U, 2, e, 0x1ce643660909f9febc64c211b2c7875a9f516c, 0x1950189359af6d8412dcbcaf7f4c7bce806bc5, 0x18100f9525e6beb96ed9066fc53b89c8b72bed);
    e := SqUpBy(U, 2, e, 0x32a03126b35edb0825b9795efe98f79d00d78a, 0x105d5e3dc2fe4ce4131d67967e8e3e6fb1f09, 0x49d7c3d7efd20a330470d7d65cf6f6c9478cdd);
    e := SqBy(U, 2, e, 0x20babc7b85fc99c8263acf2cfd1c7cdf63e12, 0x8ff3346352856dd8878b6d7cb606fcde84f54, 0x1edd01f2559661d105fa176f1155c3a88390);
    e := SqBy(U, 2, e, 0x8ff3346352856dd8878b6d7cb606fcde84f54, 0xb788f00de43e7c6d9a8f29de1783c33796263, 0x255051c3aa544dbc75077fd12244dc4f10fdb);
    e := SqUpBy(U, 2, e, 0xb788f00de43e7c6d9a8f29de1783c33796263, 0x19df84d4cfe6440accaf73b8cf197161f1b19b, 0x3ca842512cb719ba87878e5d785ed322fc682);
    e := SqBy(U, 2, e, 0x33bf09a99fcc8815995ee7719e32e2c3e36336, 0xbde4f3d0b15a813ce5e1bd6bafb0da5046df6, 0x4d25d01d9cc89a50b9b6d78c972625662243c2);
    e := SqUpBy(U, 2, e, 0xbde4f3d0b15a813ce5e1bd6bafb0da5046df6, 0xa0452ee2341ddd1ec941c6b3fbbd8a4e83c10, 0x40ef0077044a5baff6a13db1680268ba5c8cc);
    e := SqBy(U, 2, e, 0x1408a5dc4683bba3d92838d67f77b149d07820, 0x3d1730009a3d0c450480be673f3362d210cb5, 0xb9044ea40e8910f9969c54774b62a1ed0ea6d);
    e := SqBy(U, 2, e, 0x3d1730009a3d0c450480be673f3362d210cb5, 0x137b604a88908b18d315f02e1168b1c7f5bb6e, 0x6b86adbbc532d2f50420e885a71a7f37772d);
    e := SqUpBy(U, 2, e, 0x137b604a88908b18d315f02e1168b1c7f5bb6e, 0x18fbde46e1cb1cc776b23c7ad9f36eac9f90f0, 0xaef6e3350787210d7eb5ea590a493a11c92cc);
    e := SqBy(U, 2, e, 0x31f7bc8dc396398eed6478f5b3e6dd593f21e0, 0x20e37e94293df92244db4b7d3f0cbe3f925f88, 0x47ef8a2a49b7eeaaa03429cee29d9db621be48);
    e := SqUpBy(U, 2, e, 0x20e37e94293df92244db4b7d3f0cbe3f925f88, 0x17176a058c48ef15fc2addccb5e74380d15da3, 0x1f2a102a09234d339e332e298592367c829feb);
    e := SqBy(U, 2, e, 0x2e2ed40b1891de2bf855bb996bce8701a2bb46, 0xac1f69987a98cd70795a5538e728fc5b374b2, 0x3d736e189f1022cd8ced03d56f5070e58ad35e);
  }

  lemma ChainU_W_1()
    ensures Cong(Power(2, 0x1164b68307a), 0x1c52d6b75914fc5b3adfcac0fc75735e1d57dc, U)
  {
    hide Cong, Power;
    Start(2, U);
    var e := 1;
    e := SqBy(U, 2, e, 2, 4, 0);
    e := SqBy(U, 2, e, 4, 0x10, 0);
    e := SqBy(U, 2, e, 0x10, 0x100, 0);
    e := SqUpBy(U, 2, e, 0x100, 0x10000, 0);
    e := SqBy(U, 2, e, 0x20000, 0x400000000, 0);
    e := SqUpBy(U, 2, e, 0x400000000, 0x100000000000000000, 0);
    e := SqUpBy(U, 2, e, 0x200000000000000000, 0x40000000000000000000000000000000000, 0);
    e := SqBy(U, 2, e, 0x80000000000000000000000000000000000, 0x17db0b14d25ded0ed501244b85232eafcdc39d, 0x1d80c0f76140c0f7263f3f08813e7e115);
    e := SqBy(U, 2, e, 0x17db0b14d25ded0ed501244b85232eafcdc39d, 0x8dc46803006daf64f7b53f6d783f805c0248e, 0x106577e96e0ff7ed45bc792e366337f83eb97d);
    e := SqUpBy(U, 2, e, 0x8dc46803006daf64f7b53f6d783f805c0248e, 0xfc856b6b01b918a3484f684f5b291759dbce2, 0x2430d1ea0bd864705b708cc1d8a4d4f907d6e);
    e := SqBy(U, 2, e, 0x1f90ad6d603723146909ed09eb6522eb3b79c4, 0x4c231d58e02469aea3b250a6efda79d232d5f, 0x1cb4e087ce948eb4689a81c3b7c0aa06f8c4f7);
    e := SqBy(U, 2, e, 0x4c231d58e02469aea3b250a6efda79d232d5f, 0x19e305e5664e7680d9763b9b8f09e97825de39, 0xa7042b69eb88048d16c7da23bdc308b1de38);
    e := SqUpBy(U, 2, e, 0x19e305e5664e7680d9763b9b8f09e97825de39, 0x15a6ea8e38e6a0117ded4125659f5404518b9b, 0x134eadcda89c39ff34c751aae4f2dcc44eaa5a);
    e := SqBy(U, 2, e, 0x2b4dd51c71cd4022fbda824acb3ea808a31736, 0x5ca377f9873683ff090d5535bea285df85a39, 0x3607452330ab63790a508c1a8113e75fed678d);
    e := SqUpBy(U, 2, e, 0x5ca377f9873683ff090d5535bea285df85a39, 0x30a12443edb0e8df8e299a229ddcffea5b08, 0xf741d5fcea8e4de49c4dd5d0aac1435426bf);
    e := SqUpBy(U, 2, e, 0x61424887db61d1bf1c5334453bb9ffd4b610, 0x361842c0d16185ee5f264befcf15a710bc25f, 0x1108947faa99b1c43720d52beb10a2a0487);
    e := SqBy(U, 2, e, 0x6c308581a2c30bdcbe4c97df9e2b4e21784be, 0x16fd6675e90beaeb0c0f7640749fc7976a24e7, 0x1513cd0517831913a90995a42f6380f73be6b);
    e := SqUpBy(U, 2, e, 0x16fd6675e90beaeb0c0f7640749fc7976a24e7, 0x1c80a21d370f6102a956cc4769183303f7e8bf, 0xf3a51d2ddbc468b4e4163d15685412468e81e);
    e := SqUpBy(U, 2, e, 0x3901443a6e1ec20552ad988ed2306607efd17e, 0x203f60675c37c58d0cc304b3e279edc1f462c6, 0x5d9fed3ad5820eeadd092e304e13a0cc8b9672);
    e := SqBy(U, 2, e, 0x407ec0ceb86f8b1a19860967c4f3db83e8c58c, 0x4ca153d1e7976c4cd7b5416fab2beac475256, 0x77d845ae6f51c83ddee5eeb3466d7d718d0ad6);
    e := SqUpBy(U, 2, e, 0x4ca153d1e7976c4cd7b5416fab2beac475256, 0x129d2bbbf59f3e867fcc19ef28c00df00a8719, 0xa92fb0675ee93d56738c976d0e66b056b7ed);
    e := SqBy(U, 2, e, 0x253a5777eb3e7d0cff9833de51801be0150e32, 0x18d11a12ec0e98f98e963a668260019d66bb94, 0x27ee27315b308a6b8509a47ee20fc18a031150);
    e := SqBy(U, 2, e, 0x18d11a12ec0e98f98e963a668260019d66bb94, 0x6c90874f8ea140a67be9a9cf0269a29617acf, 0x11be85ba52e6e30bae02e67c5b52eb4e6b5567);
    e := SqBy(U, 2, e, 0x6c90874f8ea140a67be9a9cf0269a29617acf, 0xa92528a63d0428bb4922497d4a96dbaa7aba4, 0x1539460ced3faa3f5f4324aceb36f99b17fcb);
    e := SqBy(U, 2, e, 0xa92528a63d0428bb4922497d4a96dbaa7aba4, 0x9cad35806676d31cd8c4eef5ddb4cbe5d97a, 0x3384c6abb8f75feea9c6b30a160d6b49c03da);
    e := SqBy(U, 2, e, 0x9cad35806676d31cd8c4eef5ddb4cbe5d97a, 0x13ebb64c91e71732479d1b73929f12c8c10a36, 0x2c3404c04081db7bebd59d53ae8825c0542);
    e := SqUpBy(U, 2, e, 0x13ebb64c91e71732479d1b73929f12c8c10a36, 0x1373199db4955808af1a48e510b0c8129cd103, 0xb6ef5b5c9206c9c0cc41cf8a30933383d26c7);
    e := SqUpBy(U, 2, e, 0x26e6333b692ab0115e3491ca2161902539a206, 0x2171725aa58cabbba955434f13522ff573f601, 0x2b9896f102eec95eb8df5b9664abed266be155);
    e := SqBy(U, 2, e, 0x42e2e4b54b19577752aa869e26a45feae7ec02, 0x14c547c74499e4a69572ce074966e77d9bcdba, 0x80e566db047ba1dda876274b55465d9973bd46);
    e := SqBy(U, 2, e, 0x14c547c74499e4a69572ce074966e77d9bcdba, 0x116fe67b1c902184bd3d0e03eb660dd481cf61, 0xc6e083aa361bc8e08384fadea9d21167728b5);
    e := SqBy(U, 2, e, 0x116fe67b1c902184bd3d0e03eb660dd481cf61, 0x38830a2ca83d9464430895ee93bb810636dbf, 0x8c29d0878b65faf8d57f733584ec020cea74e);
    e := SqBy(U, 2, e, 0x38830a2ca83d9464430895ee93bb810636dbf, 0x15c850a864dfe0eaa631ace3809c600c00cfea, 0x5c031753324c0d526b2d9dce918aa075c901);
    e := SqBy(U, 2, e, 0x15c850a864dfe0eaa631ace3809c600c00cfea, 0x8f25ae4b75c348955aa5d6a0b52fe62bc89cb, 0xdab9cfb6ec3f12496f65624bda3d226f575cf);
    e := SqUpBy(U, 2, e, 0x8f25ae4b75c348955aa5d6a0b52fe62bc89cb, 0x1c69b248be6e5813bd991c0be9b263442b1c35, 0x24e6114a28e01aa78f9f7ccf05cd360734bdc);
    e := SqUpBy(U, 2, e, 0x38d364917cdcb0277b323817d364c68856386a, 0x843e1f4578f2531c1b215322df43d39f41245, 0x5d097a5fa8686c935fda41c08bf6ef4fddcd39);
    e := SqUpBy(U, 2, e, 0x1087c3e8af1e4a6383642a645be87a73e8248a, 0x20c3edc0a0fb5d5ffc3ab2cda000ad075af4e9, 0x7df6f1a2582c52334ad3bb6b43dbdef8bd3bd);
    e := SqUpBy(U, 2, e, 0x4187db8141f6babff875659b40015a0eb5e9d2, 0xa6dc56d8c782b48dccbe0ce481c4300dcb3da, 0x7bb96a46f94e1702e4c91c0477a945f569b826);
    e := SqBy(U, 2, e, 0x14db8adb18f05691b997c19c90388601b967b4, 0x19805970760568bf8f0b20fbbfc22b2ca629d0, 0xc88bb8817fb4c2dbc8b33a0a9059c2ad65140);
    e := SqUpBy(U, 2, e, 0x19805970760568bf8f0b20fbbfc22b2ca629d0, 0xc72b7b158224507c1f92ec430b0d0b7da1465, 0x12bc95f5b4231e900c90ba86a1bb37de45619d);
    e := SqBy(U, 2, e, 0x18e56f62b0448a0f83f25d886161a16fb428ca, 0x1c52d6b75914fc5b3adfcac0fc75735e1d57dc, 0x11dba5531aff23656aaa69b7342d8e2f4895b8);
  }

  lemma ChainU_W_2()
    ensures Cong(Power(2, 0x1164b68307a4d0459ae68), 0x82cc6ea1328d4bb9d41f898e496c6640268eb, U)
  {
    hide Cong, Power;
    ChainU_W_1();
    var e := 0x1164b68307a;
    e := SqBy(U, 2, e, 0x1c52d6b75914fc5b3adfcac0fc75735e1d57dc, 0x88a07f7433ba85665c571829f6463ee14b5a5, 0x171d014390f1f48032ce2df8f0c2229ad2574d);
    e := SqUpBy(U, 2, e, 0x88a07f7433ba85665c571829f6463ee14b5a5, 0xa48da570ba11239c18a8de612113086db95a9, 0x219d24a7b31ee02fe3301c6e5a5093cd6c4d0);
    e := SqBy(U, 2, e, 0x1491b4ae1742247383151bcc2422610db72b52, 0x19b14011c5a80fce0165a8379587f1160e9c15, 0xc309a8bb47bf3a20128f3dbd1e0a1a6297329);
    e := SqBy(U, 2, e, 0x19b14011c5a80fce0165a8379587f1160e9c15, 0x6f3837655e586a51ab49820699e0ee9abd12, 0x1304b6870833c17f5a56bcaee5df8c727ab371);
    e := SqUpBy(U, 2, e, 0x6f3837655e586a51ab49820699e0ee9abd12, 0x7636a5d9da5cc42bac851ed220522fb22cbff, 0x164645e56c760acee1ef061f61a433c0b83);
    e := SqUpBy(U, 2, e, 0xec6d4bb3b4b98857590a3da440a45f64597fe, 0x222ee73f1316d3ebb29d3dbcc1f7926ba4c380, 0x64a7ea812525831ea5408a7f3e75872f6801c);
    e := SqBy(U, 2, e, 0x445dce7e262da7d7653a7b7983ef24d7498700, 0xa7c30d4db331603cce0731173a8831a44ad6f, 0x86a9f6518d69d0cc7deaccb4ebf3735c3a2e17);
    e := SqUpBy(U, 2, e, 0xa7c30d4db331603cce0731173a8831a44ad6f, 0x8f322ba020ae76fd83f8ce709d06a9cfe1b08, 0x32adf2d5bd73504373e3bcfbf466f1e418acf);
    e := SqBy(U, 2, e, 0x11e645740415cedfb07f19ce13a0d539fc3610, 0x18edf8128177878c50ec6f9344615b0d50c0e5, 0x93b207a0977a247a8704683fb1832bd18621d);
    e := SqBy(U, 2, e, 0x18edf8128177878c50ec6f9344615b0d50c0e5, 0xd0083830d51423f69666fa76bca33f0c01438, 0x11e7e58fb8dc4a07a0153f227879ca9575da87);
    e := SqBy(U, 2, e, 0xd0083830d51423f69666fa76bca33f0c01438, 0x1a3c71352874fbb2301596e581fdb6d7b27b02, 0x4dee25eb3adac86b00723b1c0fc5b9f3cec72);
    e := SqBy(U, 2, e, 0x1a3c71352874fbb2301596e581fdb6d7b27b02, 0x18632b79815e39edb7cd3d3742163d68fc5d2b, 0x13d4f68c36c984f01ba6a3397b5cf77ef7ad0f);
    e := SqBy(U, 2, e, 0x18632b79815e39edb7cd3d3742163d68fc5d2b, 0x4c155d540d1b00f8fb5942d7d90d4b400ab84, 0x1122ad840064376dedcd52dfeb56f17cf32c93);
    e := SqUpBy(U, 2, e, 0x4c155d540d1b00f8fb5942d7d90d4b400ab84, 0x12c3b4792c904dfd5492c70450a5a6a3a4e896, 0xa6c7ddaaffb83009dceeb11b78ae962c7b96);
    e := SqBy(U, 2, e, 0x258768f259209bfaa9258e08a14b4d4749d12c, 0x13b0a4ab9c3eb66491911dfa3a68527d199563, 0x2894259e0fc5431944e0969c87ba97b1e43edb);
    e := SqBy(U, 2, e, 0x13b0a4ab9c3eb66491911dfa3a68527d199563, 0x88195bb77cdf61ce1454ff00d8d036826d4fc, 0xb2b8c3ce01bcb86d89cdb2c59d6a6c91c06bb);
    e := SqBy(U, 2, e, 0x88195bb77cdf61ce1454ff00d8d036826d4fc, 0xc5c5ea40503f90044547490e15d2845848a02, 0x215ac69bec90b25aad77f814e7fe171b41022);
    e := SqUpBy(U, 2, e, 0xc5c5ea40503f90044547490e15d2845848a02, 0x1c6f05b2d8ab39b4d7868a7e9e29a6458a373d, 0x466f006e7e1b140c0d31d7acfc98919bc0451);
    e := SqBy(U, 2, e, 0x38de0b65b1567369af0d14fd3c534c8b146e7a, 0x20b4c186deeefd855398126833c83aa68171cc, 0x5d2c5e8db63f3ab17a9be91e23972563eb5d68);
    e := SqUpBy(U, 2, e, 0x20b4c186deeefd855398126833c83aa68171cc, 0x1ea66353b18d23f516352bf4c5b9f5f2e01903, 0x1ed1bba56301003392accc8ed469bb75cf4e7b);
    e := SqUpBy(U, 2, e, 0x3d4cc6a7631a47ea2c6a57e98b73ebe5c03206, 0x9caff97cad399f191b9336be5e69612b3601, 0x6c43a51f7d616d0c212cc620595e2489406155);
    e := SqBy(U, 2, e, 0x1395ff2f95a733e3237266d7cbcd2c2566c02, 0xaaeb2a997c15cb12f6c5dbeda320989d7d2f1, 0xb0d65102f60a19bb2fab613f4e9dd653be5);
    e := SqBy(U, 2, e, 0xaaeb2a997c15cb12f6c5dbeda320989d7d2f1, 0x85a0597cd5ed33228ab20f9f0548d5e54624f, 0x349acaa017cf0ad9c0e2ef7828f01b828663e);
    e := SqUpBy(U, 2, e, 0x85a0597cd5ed33228ab20f9f0548d5e54624f, 0x19887f9f5a86f4816f767c0f873b308dabd3e7, 0x202752f54324026f0540e6e72015ed4787696);
    e := SqUpBy(U, 2, e, 0x3310ff3eb50de902deecf81f0e76611b57a7ce, 0xc6027d55475654217c084100423f3d640fc0a, 0x4b2245c5ebd1bb7e5017426dce8135d30f5b56);
    e := SqBy(U, 2, e, 0x18c04faaa8eaca842f8108200847e7ac81f814, 0x1122727c925ec79932e0b4634b1ff7b5297c91, 0x11a68b0de7676f9bccabbbfa22408099b688d9);
    e := SqUpBy(U, 2, e, 0x1122727c925ec79932e0b4634b1ff7b5297c91, 0xb420364f60493758c31c8c95459a646c204fc, 0x87577262a9a58ebd5beef974ae377c5b02aa3);
    e := SqBy(U, 2, e, 0x168406c9ec0926eb18639192a8b34c8d8409f8, 0x5966abdde816091ea8d68a24e3d7e945c057d, 0xe9b304d0bdbfaf3361d73c6689118884941b5);
    e := SqUpBy(U, 2, e, 0x5966abdde816091ea8d68a24e3d7e945c057d, 0x5f10662f8336cd66c01336514ccb2a0a1450b, 0xe646efa6480b07ee022a5c26237c509f41b2);
    e := SqUpBy(U, 2, e, 0xbe20cc5f066d9acd80266ca29996541428a16, 0x1e1bc09e0a6aac85d7415d78e503f44413b967, 0x4117f484a50f853abd64f8f3f7a176872250b);
    e := SqUpBy(U, 2, e, 0x3c37813c14d5590bae82baf1ca07e8882772ce, 0xf14833f36c998cc2f799eca0c12ba76701f57, 0x6878e5d49a21ac061b070e417ee44fb55e349b);
    e := SqBy(U, 2, e, 0x1e29067e6d9331985ef33d94182574ece03eae, 0x13c62dc8831cdc5877c4b9db3eeca4fcac4f0f, 0x1a3545a0c622bf80a0d0e9802ea9523956b313);
    e := SqBy(U, 2, e, 0x13c62dc8831cdc5877c4b9db3eeca4fcac4f0f, 0x227f5319234870fd8f44525eb5b1fb34f4b341, 0xb4408c20c8b87148fcde7130e1b9e5e432160);
    e := SqUpBy(U, 2, e, 0x227f5319234870fd8f44525eb5b1fb34f4b341, 0x1268027eefcb51169a830188586a9ef86d99a2, 0x2249a094b8226e3ce1b5b1dac609349659ebf9);
    e := SqUpBy(U, 2, e, 0x24d004fddf96a22d35060310b0d53df0db3344, 0xf79b7cd597251b1c49c31aa08842645a7b76f, 0x270b5855c11a4d3bc06616e82a54f2be46b087);
    e := SqBy(U, 2, e, 0x1ef36f9ab2e4a3638938635411084c8b4f6ede, 0x1844223f1761c83404516ea90b576134bc14fc, 0x1b99a828bab5fa64bd9ecfcecd1164d31169b8);
    e := SqUpBy(U, 2, e, 0x1844223f1761c83404516ea90b576134bc14fc, 0x210f379faea6ee6ac8cb097953db68c936d0cb, 0x10f72c0e691a5814b221ad634cd454672cfd83);
    e := SqBy(U, 2, e, 0x421e6f3f5d4ddcd5919612f2a7b6d1926da196, 0xf8b6962416aab2f75fd388acdb15d871f902c, 0x7df48e8cb4062f41e03a6dc6c5348055c95108);
    e := SqBy(U, 2, e, 0xf8b6962416aab2f75fd388acdb15d871f902c, 0xd8a96c74cb6eba683de1f860774e8643f8a60, 0x6f63a4696efc35d2369d623f337da0e367250);
    e := SqBy(U, 2, e, 0xd8a96c74cb6eba683de1f860774e8643f8a60, 0x82cc6ea1328d4bb9d41f898e496c6640268eb, 0x5487a50b113be20dfdae316f5d54859128233);
  }

  /** The witness of W for U. */
  lemma ChainU_W()
    ensures Cong(Power(2, 0x4592da0c1e9341166b9a0ac90fe86), 0x1f4cfb5c1753681057167b61d5b00d91760efc, U)
  {
    hide Cong, Power;
    ChainU_W_2();
    var e := 0x1164b68307a4d0459ae68;
    e := SqBy(U, 2, e, 0x82cc6ea1328d4bb9d41f898e496c6640268eb, 0x3a8db1efcde6ef36139bca2f3e882cc363612, 0x1ecea0a91d6dd4dfdfa8994bdf30553ce4671);
    e := SqBy(U, 2, e, 0x3a8db1efcde6ef36139bca2f3e882cc363612, 0x118a68e56fac624a4080c40d8352fd5db8e675, 0x62c7cc9d3783e3df54b9a49dade1d0676389);
    e := SqUpBy(U, 2, e, 0x118a68e56fac624a4080c40d8352fd5db8e675, 0x1b5a890324ab8c330b4c98157c3cf716448ec9, 0x8dd541e3d40292be8693b5bc645eb9bc968d0);
    e := SqBy(U, 2, e, 0x36b51206495718661699302af879ee2c891d92, 0x199fa43a552235aa707928881711a6e678cee8, 0x563ac31aa93ba57937111f35d7402cfc940e04);
    e := SqUpBy(U, 2, e, 0x199fa43a552235aa707928881711a6e678cee8, 0x201a873a17347ec1eaa5c050f4f89ea8355f26, 0x12eaadbbde25964267fee8686cae1cb4d38cf6);
    e := SqBy(U, 2, e, 0x40350e742e68fd83d54b80a1e9f13d506abe4c, 0x196f09b45b3500b5f200f2a2a3d7317d814928, 0x76c6ff444f72b2e1711acd6f4de2f3d6248ad8);
    e := SqUpBy(U, 2, e, 0x196f09b45b3500b5f200f2a2a3d7317d814928, 0xc2dcb7c2b368d97e6ef99fba3b6d3e264b7c4, 0x12a32e5246897e709e6454644182c45b8ebce4);
    e := SqUpBy(U, 2, e, 0x185b96f8566d1b2fcddf33f7476da7c4c96f88, 0x13f322ac625b27b8c09e2d7c3fb39a25da1e03, 0x1118083baffcc877f3f002c5721355eb16914b);
    e := SqBy(U, 2, e, 0x27e64558c4b64f71813c5af87f67344bb43c06, 0x1f59db3c631877128d698a33add18d3d88c2c3, 0x2dddf2e3e1125c50c08993b75bbbd14840c3c7);
    e := SqBy(U, 2, e, 0x1f59db3c631877128d698a33add18d3d88c2c3, 0xbd62abf4fa08d5441e5ce7dedde6fbb2a745e, 0x1c5180a88f9d7443e22271f7f63721ebbb388d);
    e := SqUpBy(U, 2, e, 0xbd62abf4fa08d5441e5ce7dedde6fbb2a745e, 0xbbe220e9103985fc22e70e11fe677ecd0cca7, 0x409605f6a025935393788811812944d7a36ab);
    e := SqBy(U, 2, e, 0x177c441d220730bf845ce1c23fccefd9a1994e, 0x10c977e3b3592b71d2e9ba9d5d6887790d8dfc, 0xfe432111f833a5456b9fd972c0e0883877178);
    e := SqBy(U, 2, e, 0x10c977e3b3592b71d2e9ba9d5d6887790d8dfc, 0x1fbf4b303c69ee1f9e833c221487ebeb39adad, 0x81e80f3f7a2e28bd0d8226feaef3ba1ea2b15);
    e := SqUpBy(U, 2, e, 0x1fbf4b303c69ee1f9e833c221487ebeb39adad, 0xe66f6e8aad856a46d002540f73879cab20d3a, 0x1d09e92d6f6c0931494b201b353bc5b952afa9);
    e := SqBy(U, 2, e, 0x1ccdedd155b0ad48da004a81ee70f395641a74, 0x6742c030f001aa1c9791a13b90fb4077e74e8, 0x17e79ab232a55457f36f10d22fb8f8f4413298);
    e := SqBy(U, 2, e, 0x6742c030f001aa1c9791a13b90fb4077e74e8, 0x18a534e4e335a64ee186d1884437c80d6f6b3e, 0x13335dcc460ce8c7b5bc5fd973ecf7206654e);
    e := SqBy(U, 2, e, 0x18a534e4e335a64ee186d1884437c80d6f6b3e, 0x8e7ef7b4d037ea8c5146f1393f9b97dee47c0, 0x117ff7e1a37f469ea4c5c644ac8107fda60f5c);
    e := SqBy(U, 2, e, 0x8e7ef7b4d037ea8c5146f1393f9b97dee47c0, 0x1ffa49a65b243bba749244ac29e2c97f34e6d4, 0x24905106db8ccd44cdd7ccb066aadd88c3db4);
    e := SqUpBy(U, 2, e, 0x1ffa49a65b243bba749244ac29e2c97f34e6d4, 0x266d930e6441b82397edc6abc9b7eb7a35738, 0x1d76396de12de8278b548c1f50cfd7cd02f568);
    e := SqUpBy(U, 2, e, 0x4cdb261cc88370472fdb8d57936fd6f46ae70, 0x18962600995ba9d9ef4b23e48bc6826c6df397, 0xaa2f629164d328bfb52bf362c36977e5a4ff);
    e := SqUpBy(U, 2, e, 0x312c4c0132b753b3de9647c9178d04d8dbe72e, 0xb698eff2855b553c5e2dcb23c208942a72026, 0x45aa6fc34041463b67d6178b08e9c96b394492);
    e := SqUpBy(U, 2, e, 0x16d31dfe50ab6aa78bc5b964784112854e404c, 0x122cc3fcf35b48bbd142a66edbc26b6a480138, 0xf0281b431b6a777a08ef92cd562f43c1d3068);
    e := SqUpBy(U, 2, e, 0x245987f9e6b69177a2854cddb784d6d4900270, 0x4d0b2879cff445f4a3f6883c25ceaca4e43ae, 0x261194f5d386533ba32e72a739326b17ed7b7e);
    e := SqUpBy(U, 2, e, 0x9a1650f39fe88be947ed10784b9d5949c875c, 0x1eb349daa3d57ad905b5de3f994333cd34a5b1, 0x2ac110bd383a9a6d00f9f79ee43dfe851c979);
    e := SqUpBy(U, 2, e, 0x3d6693b547aaf5b20b6bbc7f3286679a694b62, 0x1274e2318a25318a10e6255856ab0ac8c8ef4e, 0x6c9edb3558149948fd8e924431293359cc723a);
    e := SqBy(U, 2, e, 0x24e9c463144a631421cc4ab0ad56159191de9c, 0x106e324bfe160d73545f0b400f5066677d2e64, 0x2742096cbd9efe1cc2dcf14df90e4a9fa05234);
    e := SqUpBy(U, 2, e, 0x106e324bfe160d73545f0b400f5066677d2e64, 0x27da0e65add67d77ec281350729e443d785f8, 0x7c72711e80cbd90817a6d48a0c391068f8aa8);
    e := SqBy(U, 2, e, 0x4fb41ccb5bacfaefd85026a0e53c887af0bf0, 0x1f726fa5e071e087ab2f935f1bbcdb43bc429, 0xb70787bfa392677b4edbf314edee580cbac1);
    e := SqBy(U, 2, e, 0x1f726fa5e071e087ab2f935f1bbcdb43bc429, 0x1171eed8436b5d260db000f730c84ad609f350, 0x1c7df98a170819a11b1cbd9e50801fbce0e7);
    e := SqBy(U, 2, e, 0x1171eed8436b5d260db000f730c84ad609f350, 0x22737fa033881e756d893dea3d94db74a0724e, 0x8c4a80087ccdf4bf66c331b8f5ed3e80e591e);
    e := SqBy(U, 2, e, 0x22737fa033881e756d893dea3d94db74a0724e, 0x14ba097a515f81da67765bd298ea38d08e050d, 0x2232227b4aa2895464410e20827cb1e5f0d7e1);
    e := SqUpBy(U, 2, e, 0x14ba097a515f81da67765bd298ea38d08e050d, 0x648544b372862e0b725b655241ad0eb39e004, 0xc6096ef7181b5c8315f6f4fb0a2ebecd2e923);
    e := SqUpBy(U, 2, e, 0xc90a8966e50c5c16e4b6caa4835a1d673c008, 0x1d91eafa2ecd65aa3b357ce76cb8aca84aec29, 0x48c7d2a639b71fd546be2179f6e2f6a808581);
    e := SqBy(U, 2, e, 0x3b23d5f45d9acb54766af9ced971595095d852, 0x1f4cfb5c1753681057167b61d5b00d91760efc, 0x64c4ea27afa70b3d3b6fa407d27442320ca7f8);
  }

  lemma PrimeU()
    ensures Prime(U)
  {
    hide Cong, Power, Prime, Witness;
    PrimeV(); PrimeW();
    ChainU(); ChainU_V(); ChainU_W();
    MakeWitness(U, V, 2, 0x3647621a0c85b1150ad0194a, 0xac1f69987a98cd70795a5538e728fc5b374b2, 0x1c57608cca63bd0dec0bb61f90d77cc342f96e);
    MakeWitness(U, W, 2, 0x4592da0c1e9341166b9a0ac90fe86, 0x1f4cfb5c1753681057167b61d5b00d91760efc, 0x1abeb8e5da6ec819af61ce1a5b9f326e02c801);
    Pocklington2(U, V, 0xac1f69987a98cd70795a5538e728fc5b374b2, W, 0x1f4cfb5c1753681057167b61d5b00d91760efc);
  }

  // ---------------------------------------------------------------- Q

  lemma ChainQ_1()
    ensures Cong(Power(2, 0x124da24edc8), 0x7fa5a8ec535fe17cd2ec52d7facc9abe63bdf242, Q)
  {
    hide Cong, Power;
    Start(2, Q);
    var e := 1;
    e := SqBy(Q, 2, e, 2, 4, 0);
    e := SqBy(Q, 2, e, 4, 0x10, 0);
    e := SqUpBy(Q, 2, e, 0x10, 0x100, 0);
    e := SqBy(Q, 2, e, 0x200, 0x40000, 0);
    e := SqBy(Q, 2, e, 0x40000, 0x1000000000, 0);
    e := SqUpBy(Q, 2, e, 0x1000000000, 0x1000000000000000000, 0);
    e := SqBy(Q, 2, e, 0x2000000000000000000, 0x4000000000000000000000000000000000000, 0);
    e := SqBy(Q, 2, e, 0x4000000000000000000000000000000000000, 0x3ee0510f3770a0fc3e2715a001204c4f84e4d3c, 0x1bf921273bf921270406ded8a80dbdb1a4);
    e := SqUpBy(Q, 2, e, 0x3ee0510f3770a0fc3e2715a001204c4f84e4d3c, 0x3fbb50150f2607a5f7a99a953fdbe7fcc3675ae5, 0x1affdb0ef2a7b890e948194bc1288dbc21bf93);
    e := SqUpBy(Q, 2, e, 0x7f76a02a1e4c0f4bef53352a7fb7cff986ceb5ca, 0x80b21a857b61c52de5bff081d9450c97a0b20eee, 0x6ef4d8c5c43b6fa489c1cb2cef5b585e5e5ed446);
    e := SqBy(Q, 2, e, 0x10164350af6c38a5bcb7fe103b28a192f41641ddc, 0x15137ae885863c9769e785086124c6e76adbf7e1, 0x1c472fcb94d6e8b99806af830f80491f477d7a677);
    e := SqUpBy(Q, 2, e, 0x15137ae885863c9769e785086124c6e76adbf7e1, 0x70152014cc16acc835d0b5b220b30e689f632513, 0x3089ba3aa4fc149916c7bcc45c97f1dce7622be);
    e := SqUpBy(Q, 2, e, 0xe02a4029982d59906ba16b6441661cd13ec64a26, 0x12c431ad214551d5ced611a1e2a2716ff83c11fd, 0x1572d27110b3fe5af62196bec4db598662db9572f);
    e := SqBy(Q, 2, e, 0x2588635a428aa3ab9dac2343c544e2dff07823fa, 0xbed40c371f5334fef51a8f42c7ea84b9b76e02d, 0x99ee082c1a1227fe58d33ff62493beb86f69cff);
    e := SqUpBy(Q, 2, e, 0xbed40c371f5334fef51a8f42c7ea84b9b76e02d, 0x431e9dde378204049f723fa47fc004cd61a4b840, 0xf8b1f2187d016b87e58b49205ecb6a9bb76da1);
    e := SqBy(Q, 2, e, 0x863d3bbc6f0408093ee47f48ff80099ac3497080, 0x1c687d6822fd9a07b4359c10f49cf3cc709b3989, 0x7b110e1b0de3927fb0f26f22997db17f4a179f7f);
    e := SqBy(Q, 2, e, 0x1c687d6822fd9a07b4359c10f49cf3cc709b3989, 0x87526816f3c2fd6cbf9fb01a83c2a491ea5de645, 0x582f01a274d8a848ed711b94cea009fcc55ebac);
    e := SqBy(Q, 2, e, 0x87526816f3c2fd6cbf9fb01a83c2a491ea5de645, 0x14cf90a949620a269ddfe16be254a54e4adcc913, 0x7d0f504066ac0be6a4dc7eba86fd3ea5bc3430d6);
    e := SqUpBy(Q, 2, e, 0x14cf90a949620a269ddfe16be254a54e4adcc913, 0x2425e19a1e72e754bafa0d36064f024ce89a822a, 0x2f52e1960eff092b4e5c38365c30a7b27a53207);
    e := SqBy(Q, 2, e, 0x484bc3343ce5cea975f41a6c0c9e0499d1350454, 0x358d6463d8906bf85eaf70b86c6339cc75e01e0c, 0x23b1f703a4bc50c798e743592223b6ab4bfab664);
    e := SqBy(Q, 2, e, 0x358d6463d8906bf85eaf70b86c6339cc75e01e0c, 0x77070928ada8a6d863b6695f663eae5d1e2016c7, 0x1395ed6f141f1c483e89e1c91412151b0b386ec1);
    e := SqUpBy(Q, 2, e, 0x77070928ada8a6d863b6695f663eae5d1e2016c7, 0x322c43168d84b687719f34c9344dbf312bec0959, 0x60c16f1ce31506505e6d0f682f68803a0ebe0898);
    e := SqBy(Q, 2, e, 0x6458862d1b096d0ee33e6992689b7e6257d812b2, 0x1a9563386aa132608444ba3a8480c911038725c7, 0x44c45934aa0b912ae25a72d42149b717fa0dd255);
    e := SqBy(Q, 2, e, 0x1a9563386aa132608444ba3a8480c911038725c7, 0x604bcff063ea1a873d8064cb3880abb72ec9207b, 0x4d3835eca56468a5cf73fd76aaf364efeb3f206);
    e := SqUpBy(Q, 2, e, 0x604bcff063ea1a873d8064cb3880abb72ec9207b, 0x5e84b9887c2a6d20f1355585bd707d202be39836, 0x3f541a59dbd7950860ba98c9bb5882afc863ff8b);
    e := SqUpBy(Q, 2, e, 0xbd097310f854da41e26aab0b7ae0fa4057c7306c, 0x6b8b2c4c004c25ea9f5a1c66987272a5f8ed55f7, 0xf40c3aa36393478745c6b31261585a011413e211);
    e := SqUpBy(Q, 2, e, 0xd716589800984bd53eb438cd30e4e54bf1daabee, 0x803cc4aba116cd82e128359e35807c1da3033fa6, 0x13bf1d96b9477b7241ffd7458c17f32ba6ab8fa2e);
    e := SqBy(Q, 2, e, 0x100798957422d9b05c2506b3c6b00f83b46067f4c, 0xfcf9a2d9fff293c47c172444f91685732c351bd, 0x1c13b6fa55369785deca50a31afd08fdddad965fb);
    e := SqUpBy(Q, 2, e, 0xfcf9a2d9fff293c47c172444f91685732c351bd, 0x740523a9e0b01f4d7352693b113c7751dfb4ae2d, 0x1b50e64a2486a341441a622ea2f6c2fc7cacf7c);
    e := SqUpBy(Q, 2, e, 0xe80a4753c1603e9ae6a4d2762278eea3bf695c5a, 0x6d9dafab792461ac8c509d048b792220d4a28049, 0x16fb64a9dfa387d94cf5de4ea82f8eca94f40de43);
    e := SqBy(Q, 2, e, 0xdb3b5f56f248c35918a13a0916f24441a9450092, 0x779628d4f3dc722f59591d574f0ae81942b5e67d, 0x1483cfead06e2de77bb99ce69e9f0784702b8374f);
    e := SqUpBy(Q, 2, e, 0x779628d4f3dc722f59591d574f0ae81942b5e67d, 0x273c202db931c3c0d27c82b0d5d5c6e197bfc8d7, 0x61aaaaa809b510ba49faef3acd2bc345fae65d22);
    e := SqUpBy(Q, 2, e, 0x4e78405b72638781a4f90561abab8dc32f7f91ae, 0x8fabc2c784efdfd9dde8c3bf845f3feaf5e79494, 0x2a0d4b6a2af94a1e8d24bfa4ab9e4bc39165ac30);
    e := SqUpBy(Q, 2, e, 0x11f57858f09dfbfb3bbd1877f08be7fd5ebcf2928, 0x1fb1f49377bfdc5654cbdba7f77da7c2ce0d7adc, 0x233dee1dec80ff1e98831408cee6365216e0edd44);
    e := SqBy(Q, 2, e, 0x3f63e926ef7fb8aca997b74feefb4f859c1af5b8, 0x6bfc0f35b27e4be3b9ebcb81e0dd387d0f760a71, 0x1b715510769f3255a60843c220571932ce101617);
    e := SqBy(Q, 2, e, 0x6bfc0f35b27e4be3b9ebcb81e0dd387d0f760a71, 0x2824fb751d2a96a88bd5ebc4aa7e7128812723c, 0x4fa29f66a84f6311c71c38effd23d662a6b4acbd);
    e := SqUpBy(Q, 2, e, 0x2824fb751d2a96a88bd5ebc4aa7e7128812723c, 0x7359a8a4609aeadc4fd11dfbdd2bb94cfbb645fe, 0xb018ed8195e4f95a34969f84f99b4b8021e02);
    e := SqBy(Q, 2, e, 0xe6b35148c135d5b89fa23bf7ba577299f76c8bfc, 0x8997d0b51eb703b19ce15edadc4119b4ba98fa81, 0x16b7a7443a748a64b585c95a69d359bde9cbfe3d7);
    e := SqBy(Q, 2, e, 0x8997d0b51eb703b19ce15edadc4119b4ba98fa81, 0x811e578d1c009b07c47599f452f3b1b9bb008ffc, 0x814af7870c4dbf8b0febb046807586ee7975eb1d);
    e := SqBy(Q, 2, e, 0x811e578d1c009b07c47599f452f3b1b9bb008ffc, 0x7fa5a8ec535fe17cd2ec52d7facc9abe63bdf242, 0x71db52d2e94e3c86a3e477879f31b0d2ad6ed0de);
  }

  lemma ChainQ_2()
    ensures Cong(Power(2, 0x124da24edc83f5c27fbb4), 0x4aefde3aaa5684fe14e4559b337b52334fed9eee, Q)
  {
    hide Cong, Power;
    ChainQ_1();
    var e := 0x124da24edc8;
    e := SqBy(Q, 2, e, 0x7fa5a8ec535fe17cd2ec52d7facc9abe63bdf242, 0x34695d945e9a8228f10256d22451d53ce2701d7d, 0x6f46cac211cba283fa6e9ca4f0bf9e64f3e4800f);
    e := SqBy(Q, 2, e, 0x34695d945e9a8228f10256d22451d53ce2701d7d, 0x3fbddacb29478be02020a523332ff46b2be1a3c1, 0x12c298daa4fc23569b990ccfee68977a418ceb08);
    e := SqUpBy(Q, 2, e, 0x3fbddacb29478be02020a523332ff46b2be1a3c1, 0x638480a1825c7a413437f46a95a1c4aac74ae949, 0x1bbf6cade195f0cb1f93f037ecaebcfeb4768278);
    e := SqUpBy(Q, 2, e, 0xc709014304b8f482686fe8d52b4389558e95d292, 0x4f27b899c22c73c0b8088ff5d479222608e96bb4, 0x10e8bcd9205190cfcb40f7d46a0f9d3cfb1e2e710);
    e := SqUpBy(Q, 2, e, 0x9e4f71338458e78170111feba8f2444c11d2d768, 0x5b989916a4bfea9d8a579ce1b455facc31e8a1e3, 0xab28bcd5bcbbb5b361a87aac7b769db45d0bd1b5);
    e := SqUpBy(Q, 2, e, 0xb731322d497fd53b14af39c368abf59863d143c6, 0x8f695dda7825018fede1af8547bf4ef1c7030073, 0xe5309bfdc02e474ec79fd255c6015d184712bc69);
    e := SqUpBy(Q, 2, e, 0x11ed2bbb4f04a031fdbc35f0a8f7e9de38e0600e6, 0x842a6541849fbb549b25f060afda87991466772d, 0x231d6315e488dca725538f2f4c4bce9fd8e67a87f);
    e := SqUpBy(Q, 2, e, 0x10854ca83093f76a9364be0c15fb50f3228ccee5a, 0x12c663f45edb55198c433aef2d991dbb550a9d74, 0x1dd2d0911cb885a4257b84f53bf398d01515c44b0);
    e := SqBy(Q, 2, e, 0x258cc7e8bdb6aa33188675de5b323b76aa153ae8, 0x1a21ae210d923f2b362d8c4d0f11b5a891734e3c, 0x9a12125e986d38aa798de8684530ce76266a8e4);
    e := SqUpBy(Q, 2, e, 0x1a21ae210d923f2b362d8c4d0f11b5a891734e3c, 0x6192929e78cf7db64a01415b8dba7d625ad4e487, 0x4a9db6da518cf8e3a25446ef335c6fea3232081);
    e := SqBy(Q, 2, e, 0xc325253cf19efb6c940282b71b74fac4b5a9c90e, 0x12ae8fc7c01541601aa7dae30169d59bde60ab26, 0x10412f0bd6414a27b7a106aaea0410bffcc70ba2e);
    e := SqUpBy(Q, 2, e, 0x12ae8fc7c01541601aa7dae30169d59bde60ab26, 0x952ef2f7262980b4e21ae7f65f1d46a22ff152f, 0x2622fd1825e6a16fe96a930e8a7d4cfdce94b0d);
    e := SqUpBy(Q, 2, e, 0x12a5de5ee4c530169c435cfecbe3a8d445fe2a5e, 0x3a3124b2c918370b603d17d29d56b146cb16d120, 0x25ff8792a80c21c814f551ec91e9fe774d5bb44);
    e := SqUpBy(Q, 2, e, 0x7462496592306e16c07a2fa53aad628d962da240, 0x360cea04817d547a8195054a449b19e5d0e3bb58, 0x5c816a0ab87045c469561aa383355228851dc168);
    e := SqBy(Q, 2, e, 0x6c19d40902faa8f5032a0a94893633cba1c776b0, 0x8c4396815fe5f69a1ebaf24337d7cca5f0757085, 0x4fce8db0b8beb77b24ef8d0d7acd2671a0187663);
    e := SqBy(Q, 2, e, 0x8c4396815fe5f69a1ebaf24337d7cca5f0757085, 0x594110ef73b540c699c9bfcf131064a8f191e999, 0x865c7d2c96b220fda99cc5f6d185756ddd153f80);
    e := SqBy(Q, 2, e, 0x594110ef73b540c699c9bfcf131064a8f191e999, 0x48f87d44387d00e32694cf0d637fefba03058903, 0x3667ac44b909a6220742c0cbc5ae04a0783caa7e);
    e := SqBy(Q, 2, e, 0x48f87d44387d00e32694cf0d637fefba03058903, 0x2bba5dbd8fffed22da6483255d8fc026ea29673a, 0x245d52f12fdf25da86a0bcefbb3b3a2484025317);
    e := SqUpBy(Q, 2, e, 0x2bba5dbd8fffed22da6483255d8fc026ea29673a, 0x8a1513cd6005bac202a1e78eb0501a9efe6eefe, 0xd0f0874453f054cbc90283d16b66c1ed80a5876);
    e := SqBy(Q, 2, e, 0x1142a279ac00b75840543cf1d60a0353dfcdddfc, 0x1c71d39537c5b461031c094ae39fad3b994d3233, 0x208db301f64160851d683f08eb17bf9fcd22b35);
    e := SqBy(Q, 2, e, 0x1c71d39537c5b461031c094ae39fad3b994d3233, 0x8332caa1433286610525530ccd62dd44bf1290b5, 0x5869022918988585d225bf896b942c07756aad4);
    e := SqUpBy(Q, 2, e, 0x8332caa1433286610525530ccd62dd44bf1290b5, 0x571ecd38f19e6b29a7063ea387de9bcce0cc55c6, 0x758dea2cc8ae3dd7ed69984244a14ffb3aeed05b);
    e := SqUpBy(Q, 2, e, 0xae3d9a71e33cd6534e0c7d470fbd3799c198ab8c, 0x3417e45b1bc9eb80019d2a48e14f9f0f50c0be51, 0xcf56b9ac6cf79a4531eb1140bbcd6ba0727bab07);
    e := SqUpBy(Q, 2, e, 0x682fc8b63793d700033a5491c29f3e1ea1817ca2, 0x2ded79511ce9a0d2104088d673da98a651bb6510, 0x4a21cbdac32da22082ec20769256664f0b93d6d4);
    e := SqUpBy(Q, 2, e, 0x5bdaf2a239d341a4208111ace7b5314ca376ca20, 0x74223acc672fdccfc0154349cd702ff63e22229c, 0x399f4781dbac22c96de99437e7353664a75a3344);
    e := SqUpBy(Q, 2, e, 0xe8447598ce5fb99f802a86939ae05fec7c444538, 0x35d92ee22146686ca4046ed2df40e5a6818c9470, 0x1706ec761f07dc46b3dad903b110ae6d7cc75ad50);
    e := SqUpBy(Q, 2, e, 0x6bb25dc4428cd0d94808dda5be81cb4d031928e0, 0x48fa163f11b4e60093d649d782ef57d8efe7dec, 0x4f3613264e6f73f30c3335ccca64406fe7424e74);
    e := SqUpBy(Q, 2, e, 0x91f42c7e2369cc0127ac93af05deafb1dfcfbd8, 0x4c38fa93dcfae57fdf7e8ffb02a9451c2909370f, 0x917baa5793f93928e821561b31635a633d1ae9);
    e := SqUpBy(Q, 2, e, 0x9871f527b9f5caffbefd1ff605528a3852126e1e, 0x52864f52d4fe61c138c06b40e797a86b4b58de96, 0x9eb62f0c37ad84fb37dc0185e8af377062c31efe);
    e := SqBy(Q, 2, e, 0xa50c9ea5a9fcc3827180d681cf2f50d696b1bd2c, 0x47abe366842855bba389a01a1a2eecccb6726598, 0xba0a876939e1de0907bdf82a394d47e5bebb0038);
    e := SqUpBy(Q, 2, e, 0x47abe366842855bba389a01a1a2eecccb6726598, 0x2c2c5ce65e7fc3fa99cf99917bee3d187ec95507, 0x2314c670927983377d9dcb67eb8b66a1b0059ab1);
    e := SqUpBy(Q, 2, e, 0x5858b9ccbcff87f5339f3322f7dc7a30fd92aa0e, 0x95ae2be42fae865ce09f94edef13324af0b2ce8, 0x354dddca452563a504310a458b7d07a90229bffc);
    e := SqUpBy(Q, 2, e, 0x12b5c57c85f5d0cb9c13f29dbde266495e1659d0, 0x8bfb22073633cfcdf8c159ecdd1e778da22186da, 0x26407252293108bf56a6c49d6810bbe3cf49076);
    e := SqBy(Q, 2, e, 0x117f6440e6c679f9bf182b3d9ba3cef1b44430db4, 0x6c90ad9010a12994614b03c3040af23e23fd0a8d, 0x2174744e496f214098aa7a083533040df86e6f7ab);
    e := SqUpBy(Q, 2, e, 0x6c90ad9010a12994614b03c3040af23e23fd0a8d, 0x4734a71c07ebc0280b888617001effd9404b359, 0x507e6a37b7628f59fb496ed3bff76b6b71c00fd0);
    e := SqUpBy(Q, 2, e, 0x8e694e380fd7805017110c2e003dffb280966b2, 0x16d9616b27ab2837ea84a045cc0e3c85070fd16a, 0x8a81b7e1afbbe3f6f0834c686f6e166852300a);
    e := SqBy(Q, 2, e, 0x2db2c2d64f56506fd509408b981c790a0e1fa2d4, 0x27c4d24cfc54c0b4f6358379f7c0372637a03875, 0xe431492e178c09c8f2c9f45071a68658f674803);
    e := SqUpBy(Q, 2, e, 0x27c4d24cfc54c0b4f6358379f7c0372637a03875, 0x4ca644adc668de3505c161099f0621c99203bc44, 0xacd13d12672af18399ae593a92d2cae9bac89cd);
    e := SqBy(Q, 2, e, 0x994c895b8cd1bc6a0b82c2133e0c439324077888, 0x3a6637e60d7f7375bcb3341f516cfd78e39308e0, 0xa07e9614edad8bf6dd5ada3ac57537cf5400fc60);
    e := SqBy(Q, 2, e, 0x3a6637e60d7f7375bcb3341f516cfd78e39308e0, 0x4aefde3aaa5684fe14e4559b337b52334fed9eee, 0x174a9d45cca8d5f44e0fa087198d525bf050e302);
  }

  lemma ChainQ_3()
    ensures Cong(Power(2, 0x124da24edc83f5c27fbb4bef1db6f00), 0x8abb126cff7c4a49a3fe178099be838dfb4b652f, Q)
  {
    hide Cong, Power;
    ChainQ_2();
    var e := 0x124da24edc83f5c27fbb4;
    e := SqUpBy(Q, 2, e, 0x4aefde3aaa5684fe14e4559b337b52334fed9eee, 0x3875c08ba2914889f708172dbae3d02dd52d679a, 0x2659cbcca665a78313658e2b8030fd9482d3b4da);
    e := SqBy(Q, 2, e, 0x70eb811745229113ee102e5b75c7a05baa5acf34, 0x2ffab53629652c23b800361892abcfa595634838, 0x5714b57d4640f118b76657190447ec50fc0eb598);
    e := SqUpBy(Q, 2, e, 0x2ffab53629652c23b800361892abcfa595634838, 0x45e533321aa7fee7a987526e85c784831a92dd23, 0xfb8aa9cbc4f908c2cf6c9c6c8884145e6500275);
    e := SqUpBy(Q, 2, e, 0x8bca6664354ffdcf530ea4dd0b8f09063525ba46, 0x6d898724272a16e6f63123a159dc3655b04da33b, 0x8574b46bf150bef08b7989e040abd55ab41913e1);
    e := SqUpBy(Q, 2, e, 0xdb130e484e542dcdec624742b3b86cab609b4676, 0x6a9752c9df105a4c96d5353353c2140446402223, 0x147c450014e8db73398ad0ccc775017993d721379);
    e := SqUpBy(Q, 2, e, 0xd52ea593be20b4992daa6a66a78428088c804446, 0x7c0fdec6bfe98d5bfa674b1657927a4de1b2701e, 0x1365f6afd244fe68bfef07b38d368fb70f6423256);
    e := SqUpBy(Q, 2, e, 0xf81fbd8d7fd31ab7f4ce962caf24f49bc364e03c, 0x565f33b29493d1c9c4bc6427a9971a5c52221786, 0x1a47460fe01bf81436563e1f1bf216fdd30b1beba);
    e := SqBy(Q, 2, e, 0xacbe67652927a3938978c84f532e34b8a4442f0c, 0x8da85dc4c90f66bdfda5eca9dfbe1f1f2463723c, 0xcbcaa951b041834b06a8ed6b902cf26d1bacccb4);
    e := SqUpBy(Q, 2, e, 0x8da85dc4c90f66bdfda5eca9dfbe1f1f2463723c, 0x56e66a50a5fde55199a02c87b92398abaf62267b, 0x890b69b20460ca73b42fe40c84e34accd6ebbd2d);
    e := SqUpBy(Q, 2, e, 0xadccd4a14bfbcaa33340590f724731575ec44cf6, 0x4dcae87e12d435840a58891b8a97d93ddb0d59a6, 0xce4aace20689bd7a48e19d9aa27dffbd43e7ea4e);
    e := SqUpBy(Q, 2, e, 0x9b95d0fc25a86b0814b11237152fb27bb61ab34c, 0x4bc6e835564c8a67b71deeb6a5ae3438310f0c59, 0xa5513a4616d639bc65da2dae547b7fee92793d3f);
    e := SqUpBy(Q, 2, e, 0x978dd06aac9914cf6e3bdd6d4b5c6870621e18b2, 0x471d3443c1e8ed7cbf7c208cba5c8d4f18e0f31c, 0x9cdc876418f294fca8f0797f3fcfdbb7f3c1b568);
    e := SqBy(Q, 2, e, 0x8e3a688783d1daf97ef8411974b91a9e31c1e638, 0x20b6816eaddf760403e23591449c36774182cf5c, 0x8a268dddf8ea1940de7cbaa31b9b81b85b8632c4);
    e := SqBy(Q, 2, e, 0x20b6816eaddf760403e23591449c36774182cf5c, 0x3c86c6058e442f776d9d9165d6ef1b8168b7903f, 0x74ef0cc41b896bbdebe38bc12b6ccd2230a1f89);
    e := SqBy(Q, 2, e, 0x3c86c6058e442f776d9d9165d6ef1b8168b7903f, 0x5a22e98a4dba786d0a18ca5434ca4d6ab074b709, 0x1904e57fb22e4ca6e83be349451287fb5104cab8);
    e := SqUpBy(Q, 2, e, 0x5a22e98a4dba786d0a18ca5434ca4d6ab074b709, 0x558a94fff2e1628ab1a7903788de79d68d532e13, 0x377c5cf582cf8e3273e5b1ed548603419fa96bce);
    e := SqUpBy(Q, 2, e, 0xab1529ffe5c2c515634f206f11bcf3ad1aa65c26, 0x7c0638d9521905fa973450120fbfbe5f78352320, 0xc7e425596e2aff33bf9428f15222fd143543e364);
    e := SqUpBy(Q, 2, e, 0xf80c71b2a4320bf52e68a0241f7f7cbef06a4640, 0x7d80b2a7bf0fd5ee077a50ae9e5010e4c58027d5, 0x1a432fe07277c0608c0b2f7e7cb641a7f13363493);
    e := SqBy(Q, 2, e, 0xfb01654f7e1fabdc0ef4a15d3ca021c98b004faa, 0x41d16b5b21c05894c3daf700941fac602260ba97, 0x1ae46dbfedb1f7220df4c67af8794687dd1aed825);
    e := SqUpBy(Q, 2, e, 0x41d16b5b21c05894c3daf700941fac602260ba97, 0x6900e2f514553d7001f084e29647e3065c15dde8, 0x1d95c282e7b90869ccc8b193e518e97869a5e921);
    e := SqUpBy(Q, 2, e, 0xd201c5ea28aa7ae003e109c52c8fc60cb82bbbd0, 0x65a42538e1620b1a3d84d3d144f5cbb31e294eeb, 0x12d321d33ad975bc3426f4c1dc8b55242af14abad);
    e := SqBy(Q, 2, e, 0xcb484a71c2c416347b09a7a289eb97663c529dd6, 0x7cc87e0c9b8ac9b8d8c7d1de99bffcaf8a1573bc, 0x11a3735ae97a2c25419b20e312b5d4480e96813e8);
    e := SqUpBy(Q, 2, e, 0x7cc87e0c9b8ac9b8d8c7d1de99bffcaf8a1573bc, 0x1dd7a717d418822ce8d76007b2d4e744d89179e5, 0x6a56da4459c7720e69cf38a1dff07fbd998bc493);
    e := SqUpBy(Q, 2, e, 0x3baf4e2fa8310459d1aec00f65a9ce89b122f3ca, 0x68ab5a9cc64e5df4209c9d8b88b49d0d004d11d0, 0x185400fd1221016c0b54dfbfeff6d82687f055f4);
    e := SqBy(Q, 2, e, 0xd156b5398c9cbbe841393b1711693a1a009a23a0, 0x767793e7efb9185ef40344a2996fad58ae291d00, 0x12b48348168d35cb1a81171e091053269972c8f00);
    e := SqUpBy(Q, 2, e, 0x767793e7efb9185ef40344a2996fad58ae291d00, 0x4dd423c3096462a851ba06dfd6a0818623bf6676, 0x5fd8c0e1cd3e6faae0670d534a08afc7d96309ba);
    e := SqUpBy(Q, 2, e, 0x9ba8478612c8c550a3740dbfad41030c477eccec, 0x4777d6d5ee73c00c4556dff5b6b3e49b1cbe2577, 0xa57878fb937470c7d5fecbeee76f644d918f1a91);
    e := SqBy(Q, 2, e, 0x8eefadabdce780188aadbfeb6d67c936397c4aee, 0x70877786195c74b6ff4ca39994287fe76cec10ab, 0x8b8793c4a48a8ae111924a4d71efc6f6ac42c711);
    e := SqUpBy(Q, 2, e, 0x70877786195c74b6ff4ca39994287fe76cec10ab, 0x917b93e37a9782093b99cc85d67674401a3c98b7, 0x567aaefb4e0c6491654e93689e90ecf5b17d5ff2);
    e := SqUpBy(Q, 2, e, 0x122f727c6f52f04127733990bacece8803479316e, 0x49f2e8f34f859bfc4913469a6885caa637d022ff, 0x2422e8e65ea1af6c8cccc1518e67f94e7755f645d);
    e := SqUpBy(Q, 2, e, 0x93e5d1e69f0b37f892268d34d10b954c6fa045fe, 0x6d054e2e84b60605d3e1222f439a4ac41b49b575, 0x95625ab15970d87607635e2d25f00b6daaea48d7);
    e := SqUpBy(Q, 2, e, 0xda0a9c5d096c0c0ba7c2445e8734958836936aea, 0x34eb4646f213a65a1afa7a797f587e5bc792d3cc, 0x144aee1f509edfe5e7b46350e95cdbe2a0e36d758);
    e := SqBy(Q, 2, e, 0x69d68c8de4274cb435f4f4f2feb0fcb78f25a798, 0x24b785ecfc4e93f009335925008dc58555e2ffea, 0x4c802f5ce4ab874a95828ff59cb9cb168e4cf326);
    e := SqBy(Q, 2, e, 0x24b785ecfc4e93f009335925008dc58555e2ffea, 0x6a1e916834020a9be80ef81511f45016474effb, 0x934f742d6944aa3fb3af4948e4899effca52de1);
    e := SqBy(Q, 2, e, 0x6a1e916834020a9be80ef81511f45016474effb, 0x4a9428768e40e20f1d4b2c1e5fa7b0eeb86992c, 0x4ce86f6ecc196ddda2890cc005eec986fcdfc5);
    e := SqBy(Q, 2, e, 0x4a9428768e40e20f1d4b2c1e5fa7b0eeb86992c, 0x1ace33425f95802dfaabc1ceb2dc40bbeff4c20, 0x25fc26a3fe6b81d1ccd106b404e03bf27783f0);
    e := SqBy(Q, 2, e, 0x1ace33425f95802dfaabc1ceb2dc40bbeff4c20, 0x69630e196c075f507e4eefc9e04b1485d9c9352d, 0x4e83a552b579329867dfc4b68ed4eff2f77fb);
    e := SqBy(Q, 2, e, 0x69630e196c075f507e4eefc9e04b1485d9c9352d, 0x75f76dc0d4fad287d130bbe45958ac78ed5e2360, 0x4bd994a83a074d7565d0e670b1f02503c7c8c581);
    e := SqBy(Q, 2, e, 0x75f76dc0d4fad287d130bbe45958ac78ed5e2360, 0x315a2dbef64ce591dca3a987e5e91934b69e082c, 0x5f09d4e8c552649af61beb6e8078b324a99fe634);
    e := SqBy(Q, 2, e, 0x315a2dbef64ce591dca3a987e5e91934b69e082c, 0x8abb126cff7c4a49a3fe178099be838dfb4b652f, 0x10a24b5b5085ba3f030fd93cc1b49cf862835099);
  }

  /** Fermat's condition for Q. */
  lemma ChainQ()
    ensures Cong(Power(2, Q - 1), 1, Q)
  {
    hide Cong, Power;
    ChainQ_3();
    var e := 0x124da24edc83f5c27fbb4bef1db6f00;
    e := SqBy(Q, 2, e, 0x8abb126cff7c4a49a3fe178099be838dfb4b652f, 0x90bf10660640794cfb66828c82a6f92eb47ca79, 0x83709a8d7386b784925b8245b80617b36cb024e8);
    e := SqUpBy(Q, 2, e, 0x90bf10660640794cfb66828c82a6f92eb47ca79, 0x5bfa2bbd1dbfda42dd39242d5a2f4f613282a1b8, 0x8f15fd22256d883c80eaff73f4f75318554ef1);
    e := SqBy(Q, 2, e, 0xb7f4577a3b7fb485ba72485ab45e9ec265054370, 0x507667e3f7b91861bbffb9eb404e0fba5f9a4671, 0xe719ea37abacfc9949b7250526c71d9063c5e0d7);
    e := SqUpBy(Q, 2, e, 0x507667e3f7b91861bbffb9eb404e0fba5f9a4671, 0x188be94e2e9b3a8f6960a54da4a3c4041fb0e327, 0x2c370566f405963ea30829fecbfb16193dbd7d6a);
    e := SqBy(Q, 2, e, 0x3117d29c5d36751ed2c14a9b494788083f61c64e, 0x524e243650ea7ce206fc920bd82ab1299d52bd7c, 0x1075ae8c8551a1c1673f251d841c76845e530a08);
    e := SqUpBy(Q, 2, e, 0x524e243650ea7ce206fc920bd82ab1299d52bd7c, 0x791dd6ed4f00aeaf6d485e94aa802ffb22eb2115, 0x2e43677a09b08cc8f7e23b766f7bb53f8ac62ce3);
    e := SqBy(Q, 2, e, 0xf23badda9e015d5eda90bd2955005ff645d6422a, 0x6838f3b7fd962e6f72bb1746bafc0f1b8de039a0, 0x190ba205b17e1c936de91486b212d1d6941c68024);
    e := SqBy(Q, 2, e, 0x6838f3b7fd962e6f72bb1746bafc0f1b8de039a0, 0x8b6ed8f81e17f08242aa22df7c779e9ed62bec1e, 0x4a2ed85d348ae8478019b4e8dd601ac0fc7de352);
    e := SqUpBy(Q, 2, e, 0x8b6ed8f81e17f08242aa22df7c779e9ed62bec1e, 0x702834e3180065a6f8dc47aa8ba4bf5cce01f79a, 0x84c61effb14966a9a942e7fe7c97ab52725ab11a);
    e := SqUpBy(Q, 2, e, 0xe05069c63000cb4df1b88f5517497eb99c03ef34, 0xc514678b1d472b7be94ac7a7c9ec7c581da987d, 0x157a209cb5162a7ae29ae9fec6adf086e9b8b693b);
    e := SqUpBy(Q, 2, e, 0x18a28cf163a8e56f7d2958f4f93d8f8b03b530fa, 0x6bd396659a54c31a8a7bdc9a1de62af9323ab93b, 0x4250645b0f3e09e0d6b4ec1ce1d147b592a0ee1);
    e := SqBy(Q, 2, e, 0xd7a72ccb34a9863514f7b9343bcc55f264757276, 0x7c693884d0da943cc60e73e11faad056a7b5a126, 0x13d9be42a6677419cbd58bb31a2b2403d4e66c0ce);
    e := SqUpBy(Q, 2, e, 0x7c693884d0da943cc60e73e11faad056a7b5a126, 0x8d47dfedaf463ad5bb861e315dcb519eac935ac9, 0x69b4b71c9aaa58fcf1f6d7627c7af0f86a4c29c3);
    e := SqUpBy(Q, 2, e, 0x11a8fbfdb5e8c75ab770c3c62bb96a33d5926b592, 0x7a04b58dfb19b6100bec99ed49dc91a67324694b, 0x22143d9bff8e667d19ac0c705177afb2375c6ad71);
    e := SqBy(Q, 2, e, 0xf4096b1bf6336c2017d933da93b9234ce648d296, 0x4b89f633bd4bcd8d61546c178b0f0ea68806eb02, 0x196b78718041ff2e39b7f031d646b779fdcf68852);
    e := SqUpBy(Q, 2, e, 0x4b89f633bd4bcd8d61546c178b0f0ea68806eb02, 0x48314ab67a0fb97c99de0a070c193b0feb3da606, 0x26f826d1d93909838405d3e1c6e8dbfef744438e);
    e := SqBy(Q, 2, e, 0x9062956cf41f72f933bc140e1832761fd67b4c0c, 0x6d3e24ebf39b81531bafa8d2304f6c8340939a0a, 0x8e5f60c4e39af4ee0d4917040804fbd2d101a9d6);
    e := SqBy(Q, 2, e, 0x6d3e24ebf39b81531bafa8d2304f6c8340939a0a, 0x17977fbad4b308fd251bc4291653d83e220d34e0, 0x518071e67e634ab8ff188f14a3691123bcf0bc64);
    e := SqUpBy(Q, 2, e, 0x17977fbad4b308fd251bc4291653d83e220d34e0, 0xb85fa1a89608a12509ab4197001e02164fd80e7, 0x3cd11913fc1a009178b5b54c896e26520c9d191);
    e := SqBy(Q, 2, e, 0x170bf43512c11424a1356832e003c042c9fb01ce, 0x5bc59d11e530394137487cc7deee993d020de7f4, 0x3a09f30869a27fb3c87716d2bb87c5cc76d4f50);
    e := SqUpBy(Q, 2, e, 0x5bc59d11e530394137487cc7deee993d020de7f4, 0x87b55cc7ac6ada0e327b06c1f02163279956c3d, 0x3984865fba65560c715220ee66eecfb8194d317b);
    e := SqBy(Q, 2, e, 0x10f6ab98f58d5b41c64f60d83e042c64f32ad87a, 0x8587801f3811d395e6a37eb0389a61c5aed77154, 0x1f719e945f1b449946bff5bf20d86f94932e650);
    e := SqUpBy(Q, 2, e, 0x8587801f3811d395e6a37eb0389a61c5aed77154, 0x68133be3db8de44e371a35e64ab81e7c00a27df9, 0x79c4b8a4802c7bef000c9bae1d3bef46534d4d9f);
    e := SqBy(Q, 2, e, 0xd02677c7b71bc89c6e346bcc95703cf80144fbf2, 0x4c505ea1a8da514714f52ef85acb7f99af16a5a7, 0x127e4c211da57408631c51e34a622fcc1ce5b3e75);
    e := SqBy(Q, 2, e, 0x4c505ea1a8da514714f52ef85acb7f99af16a5a7, 0x35f8d1491cf906e5e4ea64759111c668de346ee4, 0x27c5e9b3814e5bf5a22c7281c9aabc0579d89be5);
    e := SqBy(Q, 2, e, 0x35f8d1491cf906e5e4ea64759111c668de346ee4, 0xe905b2953a0e6f9a68755dd0872a1d3cceb514f, 0x13e4d0047208436a51fcb356fb0ebc82a16d54f9);
    e := SqUpBy(Q, 2, e, 0xe905b2953a0e6f9a68755dd0872a1d3cceb514f, 0x42fd796ad4d3fc39d7b531de3b2769e518ddf1e8, 0x172d4d22218fae08c303d940f186d84b2185ff1);
    e := SqBy(Q, 2, e, 0x85faf2d5a9a7f873af6a63bc764ed3ca31bbe3d0, 0xf315567e1927669a668eeb3535d0d6a1c02df9e, 0x7a97a2e99d980701d4c77af6c94311aef2ab28d2);
    e := SqUpBy(Q, 2, e, 0xf315567e1927669a668eeb3535d0d6a1c02df9e, 0x5ebc725d93407b3b70db4694179662a0eeba8806, 0x1938b89931950e82684f36ee9c284391bffff0e);
    e := SqBy(Q, 2, e, 0xbd78e4bb2680f676e1b68d282f2cc541dd75100c, 0x4139f46a489d2b95789d842ffad9815415f54c92, 0xf52c4f6394ad15b83c3c0cdd2ec9dd669931818e);
    e := SqUpBy(Q, 2, e, 0x4139f46a489d2b95789d842ffad9815415f54c92, 0x469c9a23645719f68e345be0536c869cf63f1a19, 0x1d0e34c3f8edbd9c3673ef020d58f1ce0d2c6d93);
    e := SqBy(Q, 2, e, 0x8d393446c8ae33ed1c68b7c0a6d90d39ec7e3432, 0x3d893f751c5ef5b97a0fbf0291a4962d91afdbc6, 0x8834a88b85e1e733650c9f728fbb91c702c3fb8e);
    e := SqBy(Q, 2, e, 0x3d893f751c5ef5b97a0fbf0291a4962d91afdbc6, 0x478e2317fb30572a7f88c43ac6c109e50bc1e5b6, 0x19dc5d296a98243edaf0bba1c31d7f1459d9757e);
    e := SqBy(Q, 2, e, 0x478e2317fb30572a7f88c43ac6c109e50bc1e5b6, 0x4aaba2b3766228e650a8dbfd797ed84686646e9e, 0x22f7ac8c80d22ddad6d2037b6a54a66e2037e016);
    e := SqBy(Q, 2, e, 0x4aaba2b3766228e650a8dbfd797ed84686646e9e, 0x2dcdb17b1149925b4342214ce0f9eb0c38cbdd94, 0x261414c1e4a1fb120ba194303c6f0073b51c5870);
    e := SqUpBy(Q, 2, e, 0x2dcdb17b1149925b4342214ce0f9eb0c38cbdd94, 0x4936893b720fd709feed2fbc76dbc0153b4a8a85, 0xe53e90ae543c7b35b4ba7f4446859af42a6e073);
    e := SqBy(Q, 2, e, 0x926d1276e41fae13fdda5f78edb7802a7695150a, 1, 0x926d1276e41fae13fdda5f78edb7802a7695150b);
    e := SqBy(Q, 2, e, 1, 1, 0);
    e := SqBy(Q, 2, e, 1, 1, 0);
  }

  /** The witness of U for Q. */
  lemma ChainQ_U()
    ensures Cong(Power(2, 0x438), 0x84f6174410b13b7c641bfb1c0429a24ea8e8db82, Q)
  {
    hide Cong, Power;
    Start(2, Q);
    var e := 1;
    e := SqBy(Q, 2, e, 2, 4, 0);
    e := SqBy(Q, 2, e, 4, 0x10, 0);
    e := SqBy(Q, 2, e, 0x10, 0x100, 0);
    e := SqBy(Q, 2, e, 0x100, 0x10000, 0);
    e := SqUpBy(Q, 2, e, 0x10000, 0x100000000, 0);
    e := SqUpBy(Q, 2, e, 0x200000000, 0x40000000000000000, 0);
    e := SqUpBy(Q, 2, e, 0x80000000000000000, 0x4000000000000000000000000000000000, 0);
    e := SqBy(Q, 2, e, 0x8000000000000000000000000000000000, 0x8d26628799a205e78779ac7e6b6f9ecd6ef5f01a, 0x6fe4849cefe4849c101b7b62a036);
    e := SqBy(Q, 2, e, 0x8d26628799a205e78779ac7e6b6f9ecd6ef5f01a, 0xdf13e0192b37adf2c82db25024a304500b24230, 0x88105dd341037d77d72f9ecc2975840f4666add4);
    e := SqBy(Q, 2, e, 0xdf13e0192b37adf2c82db25024a304500b24230, 0x84f6174410b13b7c641bfb1c0429a24ea8e8db82, 0x153dae2a357a1aec4e4fed836d930f365974f0e);
  }

  lemma PrimeQ()
    ensures Prime(Q)
  {
    hide Cong, Power, Prime, Witness;
    PrimeU();
    ChainQ(); ChainQ_U();
    MakeWitness(Q, U, 2, 0x438, 0x84f6174410b13b7c641bfb1c0429a24ea8e8db82, 0x915a3c97e1f064769fa3c1c13714e947fde75b95);
    Pocklington(Q, U, 0x84f6174410b13b7c641bfb1c0429a24ea8e8db82);
  }

  // ---------------------------------------------------------------- PRIME

  lemma ChainPRIME_1()
    ensures Cong(Power(2, 0x1fffffffe00), 0x78cb57f34677e1ca40c55628a2a4e503e32c62c9150cafbfe7aa4b142519addb, PRIME)
  {
    hide Cong, Power;
    Start(2, PRIME);
    var e := 1;
    e := SqUpBy(PRIME, 2, e, 2, 4, 0);
    e := SqUpBy(PRIME, 2, e, 8, 0x40, 0);
    e := SqUpBy(PRIME, 2, e, 0x80, 0x4000, 0);
    e := SqUpBy(PRIME, 2, e, 0x8000, 0x40000000, 0);
    e := SqUpBy(PRIME, 2, e, 0x80000000, 0x4000000000000000, 0);
    e := SqUpBy(PRIME, 2, e, 0x8000000000000000, 0x40000000000000000000000000000000, 0);
    e := SqUpBy(PRIME, 2, e, 0x80000000000000000000000000000000, 0x4000000000000000000000000000000000000000000000000000000000000000, 0);
    e := SqUpBy(PRIME, 2, e, 0x8000000000000000000000000000000000000000000000000000000000000000, 0xc0000000800000003fffffffffffffffbfffffffbfffffffc000000000000000, 0x400000003fffffffffffffffbfffffffbfffffffbfffffffc000000000000000);
    e := SqUpBy(PRIME, 2, e, 0x180000001000000007fffffffffffffff7fffffff7fffffff8000000000000000, 0x4000001a0000000cc0000010000000047fffffef7ffffff1bffffff640000005, 0x24000000540000005800000013ffffffa7ffffff47ffffff1bffffff640000005);
    e := SqUpBy(PRIME, 2, e, 0x80000034000000198000002000000008ffffffdeffffffe37fffffec8000000a, 0xffffc59c80004fb8000030cb80005f6300006478ffffec15ffffc1d93fffac4b, 0x4000003440000add80001525400019db00000e9c7fffecd3bfffc35f3fffabe7);
    e := SqUpBy(PRIME, 2, e, 0x1ffff8b3900009f70000061970000bec60000c8f1ffffd82bffff83b27fff5896, 0xd2509a842a34bf46a93145a264e31c2322c7a963f3a75e4d400f82c60b165786, 0x3fffe2ce835459d54a3d396a878d4b4a9a087301183349f465d7b75979d9adfa2);
    e := SqUpBy(PRIME, 2, e, 0x1a4a1350854697e8d52628b44c9c63846458f52c7e74ebc9a801f058c162caf0c, 0x52336ba845b1daa823f36a5103410c6dcdad5038079f4641a62ca3c754dadb30, 0x2b3215b89c79222b10959938be4c0800526b950a2f73a386d3fa300c4a10972a0);
    e := SqUpBy(PRIME, 2, e, 0xa466d7508b63b55047e6d4a2068218db9b5aa0700f3e8c834c59478ea9b5b660, 0x82e670332e065fa8e2ae3df971c6c1f531f33ecb2790bcd7b0a06e7fa63e0b93, 0x6993ed2fe573246bb8bbdc4a70c089e052a72bba97a8c052609f703980916793);
    e := SqUpBy(PRIME, 2, e, 0x105cce0665c0cbf51c55c7bf2e38d83ea63e67d964f2179af6140dcff4c7c1726, 0x2a666924dd8e7d3bbaeb1eb55efcfffc0c99e171ffd2b631c25d36ff95f5dd7f, 0x10bbb65882b4361f89059d543974b97f6dfc9a73cfe191298a583df66970e03db);
    e := SqUpBy(PRIME, 2, e, 0x54ccd249bb1cfa7775d63d6abdf9fff81933c2e3ffa56c6384ba6dff2bebbafe, 0x983a259a4a3a934fc5acdca898117349eab77898713f5740c5df846553cb9c4a, 0x1c170de0512154a592f8db2c26ead1fc6caf0467586031abd863a87f28e18846);
    e := SqUpBy(PRIME, 2, e, 0x130744b349475269f8b59b9513022e693d56ef130e27eae818bbf08caa7973894, 0x2cf34bc86226a9c97377db74e9699c54f53431a712fd35c1b3ea47554621b78a, 0x16a146772886907205430d7da8b800e4095a9a137694b6a9c332d18a06308a1fa);
    e := SqUpBy(PRIME, 2, e, 0x59e69790c44d5392e6efb6e9d2d338a9ea68634e25fa6b8367d48eaa8c436f14, 0xfbddcd636220932134ed9deb28e3e26c750bc80fa42af49171b3af96ff99b8b7, 0x1f92251779ecbd9651000d71028d30e2c02b3e20266455cdfaf025c5caef5f27);
    e := SqUpBy(PRIME, 2, e, 0x1f7bb9ac6c441264269db3bd651c7c4d8ea17901f4855e922e3675f2dff33716e, 0x14d644775364a00966409fe10a24eb0e5abba68106e54fb3c97718a4f1c2672, 0x3df32c3b872613dae01738ea4d83479e4140c75ae22423588fd66668ec705db2e);
    e := SqUpBy(PRIME, 2, e, 0x29ac88eea6c94012cc813fc21449d61cb5774d020dca9f6792ee3149e384ce4, 0xc70ba482dd223c60723bc93e4a968b2ba6fc908743d7176756063654fbec2b70, 0x6c8b824c223bcc9390ff249f10e0b01a3faa3cfd6a20b39244f69d1140060);
    e := SqUpBy(PRIME, 2, e, 0x18e174905ba4478c0e477927c952d16574df9210e87ae2eceac0c6ca9f7d856e0, 0xfc438eb141b6e23f5b59e835fdcca4a22c8bf864e1ab6aab79d2b66ebbd55a85, 0x26b0c692e6e150d4d5727c8b464f108d485f70f7826ad4f2e9fefd437c45a1685);
    e := SqUpBy(PRIME, 2, e, 0x1f8871d62836dc47eb6b3d06bfb9949445917f0c9c356d556f3a56cdd77aab50a, 0x21d34a03e61dbc26a01f3249050e86774e8620d5740877573b546186b6498b69, 0x3e2544b07c91a962bd5d7ae0645e5f099e2e5e22728663e510303381e78fa6705);
    e := SqUpBy(PRIME, 2, e, 0x43a69407cc3b784d403e64920a1d0cee9d0c41aae810eeae76a8c30d6c9316d2, 0x90db1477890f78556fb5fd76e36678de383c459901d74cd56c5ab209cb26ac9a, 0x11e09de0767da05a69b5b81644225670f9fef0157ae2412996fa04f163f1e856);
    e := SqUpBy(PRIME, 2, e, 0x121b628ef121ef0aadf6bfaedc6ccf1bc70788b3203ae99aad8b56413964d5934, 0x89dacca919c278cc772fdf1897fd763ddfe78a530ebfb94d52ddf286c088cb58, 0x147dcca0b493ffe56830dd0d51a806f5b381cc47ac840b96959eb58e7082b98c8);
    e := SqUpBy(PRIME, 2, e, 0x113b599523384f198ee5fbe312ffaec7bbfcf14a61d7f729aa5bbe50d811196b0, 0x45d54d378c3b02d6c583feaf55241156574f103f3aa4a96174e1297c0426f713, 0x128efa839edaf7d3eeb746b39bbc5c66bb068fc1c0d9a38109b4e408948143e13);
    e := SqUpBy(PRIME, 2, e, 0x8baa9a6f187605ad8b07fd5eaa4822acae9e207e754952c2e9c252f8084dee26, 0x1bef0e6d64248b3a5797683d246162b73a49da8fc1a4994d30d46186eb3140ef, 0x4c32b566697935f45441e38d2d5eaff7b7c0948a575d08750f69a94b6aca934b);
    e := SqUpBy(PRIME, 2, e, 0x37de1cdac8491674af2ed07a48c2c56e7493b51f8349329a61a8c30dd66281de, 0x4db84e0516b1a74a79eb647c9320aaa8b314f66565967d358bf6095f0d1dbacc, 0xc31311c1cf48e4edc7f5cf99a77d33a641b585ca47d690f5133cdcc35443e48);
    e := SqUpBy(PRIME, 2, e, 0x9b709c0a2d634e94f3d6c8f9264155516629eccacb2cfa6b17ec12be1a3b7598, 0x8b3eaac094e4d3dd4fc46a47d7c5de27c1b81eb4a19cc7a9e3622741fbd003dd, 0x5e618e7d995bee42f8299009fbe6c8619cfb784b5d6544fc73a617efb1bbb99d);
    e := SqUpBy(PRIME, 2, e, 0x1167d558129c9a7ba9f88d48faf8bbc4f83703d6943398f53c6c44e83f7a007ba, 0x1893812b1049124a35993fcca1b8746f4e76570225e71b90980e4ca20a695e24, 0x12ef47312526841334f9ff600dfe7a0c668b665eb8978e508293ad95375adab00);
    e := SqUpBy(PRIME, 2, e, 0x31270256209224946b327f994370e8de9cecae044bce3721301c994414d2bc48, 0x2f7a08afdcc47f6dc3c9f790c842d843f34766c1d95143614c94262a88a9bb2, 0x96ff4d6b82b48dad3e51437517aaaa1ebd2fcf9940391f2ee55913df7f0c772);
    e := SqUpBy(PRIME, 2, e, 0x5ef4115fb988fedb8793ef219085b087e68ecd83b2a286c299284c551153764, 0xa7c13a245f77a28835849c7f5265d994b5700b1e6f9fba034f72b1f4f11cbe46, 0x233825738f204831e1f0d0f427685f70fe7ce035b461fe53ede33d86b89f36);
    e := SqUpBy(PRIME, 2, e, 0x14f827448beef45106b0938fea4cbb3296ae0163cdf3f74069ee563e9e2397c8c, 0x9d5e7b6096a7a409672318a5ab9b7b49675683b436bddbd189fbc5a6245c5c24, 0x1b7b6aed26a20d2489acec0617d9ca7097a3e6985b398ba05dca139fe416c6f94);
    e := SqBy(PRIME, 2, e, 0x13abcf6c12d4f4812ce46314b5736f692cead07686d7bb7a313f78b4c48b8b848, 0x39d7b547fb2128102767ba8a7871d3defd7a9586fa78b81b7addb3d84598147f, 0x182f418cebfacf6e6f26fcecb845b76c60c451baf76cb6ee95579ac265970803f);
    e := SqBy(PRIME, 2, e, 0x39d7b547fb2128102767ba8a7871d3defd7a9586fa78b81b7addb3d84598147f, 0x7c447343b423e4b9b536a6358dd988bd8acab3cc748b8fbf24d629aef52a5640, 0xd11c47c1a2d375eaf2eedb924409ae464727e68c1db68d08558a3fa26b63f3f);
    e := SqBy(PRIME, 2, e, 0x7c447343b423e4b9b536a6358dd988bd8acab3cc748b8fbf24d629aef52a5640, 0xf237b1d9caa45f9d5a7b9296f0dbb02bb3d793f385dd32b6cd2b2195294c6bae, 0x3c5261f742b2c05c79a0a522d6b2d275d460c7a3ce95b212da33527e3f3d5bae);
    e := SqBy(PRIME, 2, e, 0xf237b1d9caa45f9d5a7b9296f0dbb02bb3d793f385dd32b6cd2b2195294c6bae, 0x6bc2d9018e3ae0a993d3790819a7541d73a852169d3a1edd508bfbee4512fb8b, 0xe52d585e8f701344b63abd75c155da2753cb4def236cfbc5aab636146c781147);
    e := SqBy(PRIME, 2, e, 0x6bc2d9018e3ae0a993d3790819a7541d73a852169d3a1edd508bfbee4512fb8b, 0x211556a98d9a2226609868e3bbf254e757b05fbd8ec99b6212191218405ca980, 0x2d5c75b51890e1e16a25dc92e4233349dfb9b329e83ac0584df58ca2fba6cc07);
    e := SqBy(PRIME, 2, e, 0x211556a98d9a2226609868e3bbf254e757b05fbd8ec99b6212191218405ca980, 0xeffaa7f012708c64dd59038232b5c34d1cc97106a765eb51e46c7df3a2cac04d, 0x446821f0fefd5a65da27d908a59c8d712dc0b460d222009a0083fa95e90804d);
    e := SqBy(PRIME, 2, e, 0xeffaa7f012708c64dd59038232b5c34d1cc97106a765eb51e46c7df3a2cac04d, 0xe6bfe95d5bbd2f572791de772691fb0940a7f3fbd7217f00fd8dab3968056262, 0xe0f5faff92733e26a750a4b187b2f2b6f22d5756e58219d3205c2b15ea0dcb39);
    e := SqBy(PRIME, 2, e, 0xe6bfe95d5bbd2f572791de772691fb0940a7f3fbd7217f00fd8dab3968056262, 0x7cb7df453817df9d80193a5c36d41bc226b78723e69e7460afbf074064b60e93, 0xcffd67329edf4f99368a269fd3487a76420f4b580e604025edb1eb8fc712e10f);
    e := SqBy(PRIME, 2, e, 0x7cb7df453817df9d80193a5c36d41bc226b78723e69e7460afbf074064b60e93, 0x78cb57f34677e1ca40c55628a2a4e503e32c62c9150cafbfe7aa4b142519addb, 0x3cc2a45c42c9a18f2e09f5ef8b2623e2602aa91891dcc434b6de3ab893414572);
  }

  lemma ChainPRIME_2()
    ensures Cong(Power(2, 0x1fffffffe000000020000), 0xe00fd69788b7831b16db9385b2c4cc85660bc83b74687d4665aa5ffa1af1b3d9, PRIME)
  {
    hide Cong, Power;
    ChainPRIME_1();
    var e := 0x1fffffffe00;
    e := SqBy(PRIME, 2, e, 0x78cb57f34677e1ca40c55628a2a4e503e32c62c9150cafbfe7aa4b142519addb, 0xce8c7a7c174c5c0277af9841a8d64d3946db69a5529ba20825700e849884b5eb, 0x38ff43f8e518aadab6090639f1a75b806971afd478565e0f27522377dfacfc92);
    e := SqBy(PRIME, 2, e, 0xce8c7a7c174c5c0277af9841a8d64d3946db69a5529ba20825700e849884b5eb, 0xdc43c1c1e2bd2e523d13c650c769110df6602cb08fb41753358e5d82446b16ff, 0xa6a662368e794429deeeaed2074371871dadd33931aab691f24f325718ccf146);
    e := SqBy(PRIME, 2, e, 0xdc43c1c1e2bd2e523d13c650c769110df6602cb08fb41753358e5d82446b16ff, 0xc23bbf99751e96862e60d142f1b48d51be1498b262856308ca3e5fb289eb499, 0xbd8486f4f95c4850bdc8203ef3ee626df8ebbe9282fd748415fe33fb7563e298);
    e := SqBy(PRIME, 2, e, 0xc23bbf99751e96862e60d142f1b48d51be1498b262856308ca3e5fb289eb499, 0xf0b475c3826571b949f05ca3cab2b10a71b570496d5cf759cd1deb2dc5568101, 0x935e9c5709034d540e89ed9d1f0c9908b4948a53d3d543dd8612548912fd90);
    e := SqBy(PRIME, 2, e, 0xf0b475c3826571b949f05ca3cab2b10a71b570496d5cf759cd1deb2dc5568101, 0x500dc6b26c87e02ffde3cbe6dde543ed9ee3d06b11b479c30314a2c43b0eec40, 0xe252dc0547ecba685fb653a7f0da186bd6ba0149ed6e8860657b32a3c360ea3f);
    e := SqBy(PRIME, 2, e, 0x500dc6b26c87e02ffde3cbe6dde543ed9ee3d06b11b479c30314a2c43b0eec40, 0x32c14abb1bcf78d6236808021aacb2f6a2ef1255f4b504c97390ef8761b4e1e2, 0x19089ced65350b15597b837b19c2f808149a6a1ab71c1641aa164bc330aed1e2);
    e := SqBy(PRIME, 2, e, 0x32c14abb1bcf78d6236808021aacb2f6a2ef1255f4b504c97390ef8761b4e1e2, 0x93262072bcc8f377ed8867a02bfdb37bc67941da9807e8fd26cc87fed641943c, 0xa101322e4ddc200497f75cbf7a4f4d6d0cd23394f25a5a20cb7bca7252288b8);
    e := SqBy(PRIME, 2, e, 0x93262072bcc8f377ed8867a02bfdb37bc67941da9807e8fd26cc87fed641943c, 0xb37d76b0b6937824eee4c68b4c4a329b717e1f3fd7ec1b8cdbe133d40b8919a4, 0x5494cef1bf9084d4586f76ea6e2615a2f00937337458a8c7c47610231f3bab94);
    e := SqBy(PRIME, 2, e, 0xb37d76b0b6937824eee4c68b4c4a329b717e1f3fd7ec1b8cdbe133d40b8919a4, 0x8970730d305eeec4a08e19a22f0fccd1ce8da2db43c882ef1705e3bfde2f6041, 0x7dd8b178bcc499cab8ce642dc4d5c1cfc3132e570b14da75b0ef027f5215ef31);
    e := SqBy(PRIME, 2, e, 0x8970730d305eeec4a08e19a22f0fccd1ce8da2db43c882ef1705e3bfde2f6041, 0x3069ae0607d505e6f4eb4dedcd28ff3c97df70a1a5c919472a4a94c9285ac8ca, 0x49c98c8946ce554b9a36017e447377858538525415f856ee69857a15f04bf849);
    e := SqBy(PRIME, 2, e, 0x3069ae0607d505e6f4eb4dedcd28ff3c97df70a1a5c919472a4a94c9285ac8ca, 0xc58d4d699e36e84ed257774c28538b527bfd5ccf3713465c474537aa72c98fb5, 0x927cce283564ea1dfbb3b574338c5d7b62499a60c4a1f388d67db8587455051);
    e := SqBy(PRIME, 2, e, 0xc58d4d699e36e84ed257774c28538b527bfd5ccf3713465c474537aa72c98fb5, 0xf72fa7b1102d9147bb64b84eef451f3197fa22c01af018c7146df84f9a5963f0, 0x9872c72383b445e854619e72b9d9af65dfc2fb75aaf37581f3f1333b6b73adf7);
    e := SqBy(PRIME, 2, e, 0xf72fa7b1102d9147bb64b84eef451f3197fa22c01af018c7146df84f9a5963f0, 0xaa35203a6abdbc6fb0558f8d8b4428e719495fa5e935f538d171f491bdc5444b, 0xeeacfe779cc15b1d459bbd3d8e6247daba05944c38bdda8e65359afe59e1c34b);
    e := SqBy(PRIME, 2, e, 0xaa35203a6abdbc6fb0558f8d8b4428e719495fa5e935f538d171f491bdc5444b, 0xd16a9913a5551f673969a551e7ea5d8eb0b62093652e414388d2c817b1b77721, 0x712a99d4632d72ac480a7a4ae2bd1c0dd9e9140032ef0c1238499448c6118928);
    e := SqBy(PRIME, 2, e, 0xd16a9913a5551f673969a551e7ea5d8eb0b62093652e414388d2c817b1b77721, 0x5db4bdfd78eff7cc47e5c24fe9f7018f38471401ba170c9827262f42f3471a98, 0xab4f3a55df119f3b75ef530df71158d3bbb963b79f9c67df9088011dc8a96857);
    e := SqBy(PRIME, 2, e, 0x5db4bdfd78eff7cc47e5c24fe9f7018f38471401ba170c9827262f42f3471a98, 0xd3c2a163a4ddcd24e948bfbe5d4c01e2aef45a752df962f8f127046dbfa65f1e, 0x224cd1a6059d7caf5e27fa8028a684a3f933724f8102046c48696dd16c9324de);
    e := SqBy(PRIME, 2, e, 0xd3c2a163a4ddcd24e948bfbe5d4c01e2aef45a752df962f8f127046dbfa65f1e, 0xe1492527f9187ea69bebf5227b7809d9e3a6441662053a9011ca82d3904ef35b, 0xaf2a6a03f1b46680f0cb81d079ddac6bbe8b7fc41e22b79ea486e5394e0fabd7);
    e := SqBy(PRIME, 2, e, 0xe1492527f9187ea69bebf5227b7809d9e3a6441662053a9011ca82d3904ef35b, 0x2539384dd5a74a259bf3cafca27efab69f187f19017f41394b3e0eb35ecac829, 0xc641a837404f5b0e7f9accdd79f632cdd12392e4e2f47887c6fb9091cc00e5d0);
    e := SqBy(PRIME, 2, e, 0x2539384dd5a74a259bf3cafca27efab69f187f19017f41394b3e0eb35ecac829, 0x53f325c8c4295294dd88795d88eaaf93b9a66ede4a97bba8ba138b7f2a5f508e, 0x5699710a4373c21ec046ddd94cbd15c0701326af6b2efd9dfa59a8a912b39fd);
    e := SqBy(PRIME, 2, e, 0x53f325c8c4295294dd88795d88eaaf93b9a66ede4a97bba8ba138b7f2a5f508e, 0x165ab0ba815287ef0fe04fabae116c4e5ae59a9446abf1b36314ba9a09ab5c93, 0x1b8791710b72699746ed45b263b347426bebcc167fe8a0f082f12fca8eee4dcf);
    e := SqBy(PRIME, 2, e, 0x165ab0ba815287ef0fe04fabae116c4e5ae59a9446abf1b36314ba9a09ab5c93, 0xf9ea868b152d84e8425e85aa28d8082d3df12c3b149433ed6c9eb244d0847697, 0x1f3b680cd51cd971e5a5351a27dfb6452591b4406b1b93e9e983631aca87a2e);
    e := SqBy(PRIME, 2, e, 0xf9ea868b152d84e8425e85aa28d8082d3df12c3b149433ed6c9eb244d0847697, 0xdbb6c2908ff1f680b9df42aa68f8c260ae613af1015191aa256dc6d97541ade3, 0xf3fa1095c0253a133e3257e7fcb28088f5c1372ed530e80ab5e94561929a20d2);
    e := SqUpBy(PRIME, 2, e, 0xdbb6c2908ff1f680b9df42aa68f8c260ae613af1015191aa256dc6d97541ade3, 0x6ac4b12897559006ea218bba478fb13c3a905d4442d96889daf17b7e384f2056, 0xbc92335d4c4646f44780f9b6acb7e0a0aff493cd857560c2919a72dcf6ec890d);
    e := SqBy(PRIME, 2, e, 0xd58962512eab200dd44317748f1f62787520ba8885b2d113b5e2f6fc709e40ac, 0x9c3742585032fab900185f31b6470e1e19a5f36aedd0dbc986f064d13cfb180d, 0xb21de7562a6cdf4e5faa9dfbc55861571497520e2e49aa0611dba7c6d854a47d);
    e := SqBy(PRIME, 2, e, 0x9c3742585032fab900185f31b6470e1e19a5f36aedd0dbc986f064d13cfb180d, 0xedc9b799f72c23286e0dbd75d35d8905b3994d1cce255b9c3a19e9a3c660e06d, 0x5f5364c99435a413edf1a7defef72296c3d6475e0db6028eba6bd2db82a06fc4);
    e := SqBy(PRIME, 2, e, 0xedc9b799f72c23286e0dbd75d35d8905b3994d1cce255b9c3a19e9a3c660e06d, 0x5983bed00380061d8ddd25d4da98359fd163553f47c5d9cd6d2c3538c8d6a047, 0xdcdf1ce5c3fa75477409a1e0acd39d0225c42cf4a988aa75a24400991657b1de);
    e := SqBy(PRIME, 2, e, 0x5983bed00380061d8ddd25d4da98359fd163553f47c5d9cd6d2c3538c8d6a047, 0x65ac11bff4ab6316abcd3b0a8d2ad6208c01ee30b83e75248a74f076ea8197b6, 0x1f4cde7998d8e5f801990ae6bb219274841853a773e70769a2395d079f74c405);
    e := SqBy(PRIME, 2, e, 0x65ac11bff4ab6316abcd3b0a8d2ad6208c01ee30b83e75248a74f076ea8197b6, 0x76e2ee1c1badb836e2439168d2fcbb9045dac916962dd7a1e55a11ed6109116e, 0x286139a97a9c4a9420ffe38eac2ddf99ff2ddb8e0e6f64802dabcb3269b4dc0a);
    e := SqBy(PRIME, 2, e, 0x76e2ee1c1badb836e2439168d2fcbb9045dac916962dd7a1e55a11ed6109116e, 0x19f59fe6c3c80ba8f241a6035c608d6f3521ece841304564c79f815bc2580430, 0x3735fcab67d347c41d9f87e748ff7b876c3c23faa411be79b664c0282b6c38ec);
    e := SqBy(PRIME, 2, e, 0x19f59fe6c3c80ba8f241a6035c608d6f3521ece841304564c79f815bc2580430, 0xb12be52a425589f3cca29b2afda54657fa768a3eefe9a387faea14a67f336dfa, 0x2a1e4e688722b4ab62bf90f0bf472c9b5dce0251d66a36fb4f535eade21e4fa);
    e := SqBy(PRIME, 2, e, 0xb12be52a425589f3cca29b2afda54657fa768a3eefe9a387faea14a67f336dfa, 0xc055caa0b7222239c121eb5a9814894e4f81cfd89f5a3cf7b1afdb28bcded046, 0x7a9dba6bb3aeed91900074281a37b0781de193f7098076511d92197db003f822);
    e := SqBy(PRIME, 2, e, 0xc055caa0b7222239c121eb5a9814894e4f81cfd89f5a3cf7b1afdb28bcded046, 0xa80122908f15de6c75b6123375c2551f4f851e5d39f5e6c3de769757cb9da08a, 0x9080ccb1d24fa299e98bb5ece55e37fcc24207413aaa216d8971b9a318c3cd66);
    e := SqBy(PRIME, 2, e, 0xa80122908f15de6c75b6123375c2551f4f851e5d39f5e6c3de769757cb9da08a, 0x1d78554f5ea2cdbaeeace7b2e6d96850cd2656bd00eaac701b38f33bd77911c8, 0x6e417d5f73da071c3498e6b0a3ec024e147d7d9eb29e5a24c987abc6ad884764);
    e := SqBy(PRIME, 2, e, 0x1d78554f5ea2cdbaeeace7b2e6d96850cd2656bd00eaac701b38f33bd77911c8, 0xece36dbf124911ee88a9d3a0c38257bdf1712dc3ed83941de15e880034877013, 0x3647be415abe494f3af69c50bcef818489d99114152cd590af210b0743b43d3);
    e := SqBy(PRIME, 2, e, 0xece36dbf124911ee88a9d3a0c38257bdf1712dc3ed83941de15e880034877013, 0xda5def7c12144d9c72ed5f5028e33babef9c19c82eba07596ff8408e1cad7fc4, 0xdb341c64f4d18738363923e24b1eb6fee022aa504845ccc3ca28c35eff92de5b);
    e := SqBy(PRIME, 2, e, 0xda5def7c12144d9c72ed5f5028e33babef9c19c82eba07596ff8408e1cad7fc4, 0x871cbc00d03da3b816d6284cb1615ec9215eacd15397d02be4cea6197fe9cde4, 0xba441e57e93cbb29743c8e4a16ef5f17f1c29b436caadfb5cd7c7f20b13dbfd4);
    e := SqBy(PRIME, 2, e, 0x871cbc00d03da3b816d6284cb1615ec9215eacd15397d02be4cea6197fe9cde4, 0x24c67ab949fdaf3598a74bd395fc0b59ba20972d495647f875e881382b07b880, 0x474f5182cd2f1385b01539c9b57d1f1147d051e87e9935ed8860cadf8468c570);
    e := SqBy(PRIME, 2, e, 0x24c67ab949fdaf3598a74bd395fc0b59ba20972d495647f875e881382b07b880, 0x5337aeeaaa6c06cdf2af5ae98707ad996e2f37162d147e5241f58646afc54ff6, 0x5486c66338b5aba192318b7220d5baaaae13ba9c16b51fe3768361013cd0ff6);
    e := SqBy(PRIME, 2, e, 0x5337aeeaaa6c06cdf2af5ae98707ad996e2f37162d147e5241f58646afc54ff6, 0xeae965594ce8be9b2b6f15ad87c7730f65f644ce4690ebb2fd59fa929ce0df64, 0x1b0d2788e5e845241ae726ecff517de1eb5ae89c4806d44ddc315ca41f4b1f00);
    e := SqBy(PRIME, 2, e, 0xeae965594ce8be9b2b6f15ad87c7730f65f644ce4690ebb2fd59fa929ce0df64, 0xe00fd69788b7831b16db9385b2c4cc85660bc83b74687d4665aa5ffa1af1b3d9, 0xd78f8211bcd69405be7932bab707c6a531a9682177c801f0e5316c20890254c9);
  }

  lemma ChainPRIME_3()
    ensures Cong(Power(2, 0x1fffffffe0000000200000000000000), 0xf19aed42ae67a1eeda183f76e6c0f5b78e72f6fe0f5a0007b8bbacc91a9776f6, PRIME)
  {
    hide Cong, Power;
    ChainPRIME_2();
    var e := 0x1fffffffe000000020000;
    e := SqBy(PRIME, 2, e, 0xe00fd69788b7831b16db9385b2c4cc85660bc83b74687d4665aa5ffa1af1b3d9, 0xd6d64ff79e7839733c66713430b90076209d5e5af9340df6ee211600285a553e, 0xc41bb884cd0095ba2ec34020321a48e6dc13040d75a9b406d188c76ff76f274d);
    e := SqBy(PRIME, 2, e, 0xd6d64ff79e7839733c66713430b90076209d5e5af9340df6ee211600285a553e, 0x497f0bcd4dd41adb13f0cbe1e78c539df2ecc65d80a4f01b2efde85b49b8c5da, 0xb44b011c7c33b579df198febd6a4ddd7ec9de580903a6c3a5ffee5d7ddbe8ad6);
    e := SqBy(PRIME, 2, e, 0x497f0bcd4dd41adb13f0cbe1e78c539df2ecc65d80a4f01b2efde85b49b8c5da, 0x90fd72f5505ac09e253f403a68d1fc66a8fbe897ae0efd6691967b72baf56880, 0x1519b3c7e1bb2ce15b09b4c382555b7fb4e177a648f8ccecc37fcc4364ac2adc);
    e := SqBy(PRIME, 2, e, 0x90fd72f5505ac09e253f403a68d1fc66a8fbe897ae0efd6691967b72baf56880, 0x9a0b9aac2c01aa31f427df3f9348a4a71ac8f1f78fc2e6a7f603a3f89261fc10, 0x521e1c40b9046ef6c3dd7a6b2be4bdcafa3064df37e2159da27e0add62b9bc10);
    e := SqBy(PRIME, 2, e, 0x9a0b9aac2c01aa31f427df3f9348a4a71ac8f1f78fc2e6a7f603a3f89261fc10, 0x59fc9ac0e3eac5c6f598b6d633f472874b8636aa45efd84d6414afbb9a0053ab, 0x5cb1f69e29e35843b1cdb50f3438e4d5f27799d356be00ee032c07b85db0d2ab);
    e := SqBy(PRIME, 2, e, 0x59fc9ac0e3eac5c6f598b6d633f472874b8636aa45efd84d6414afbb9a0053ab, 0x4da03c1bee673a8e7d4aedc1eba32c0e41137485d759f76579b09d8fe24b313d, 0x1fa19cdb47683421ff448708bed02ba651dadf05c06abb16037633140af2dd04);
    e := SqBy(PRIME, 2, e, 0x4da03c1bee673a8e7d4aedc1eba32c0e41137485d759f76579b09d8fe24b313d, 0x40bb91a3173f193e9f148d8266556483ff592490c7414ccc5107b263cbe97947, 0x1789c87415fafd83732a2509e19bedcf58d7b5ef61c2b44c20b9053834b310be);
    e := SqBy(PRIME, 2, e, 0x40bb91a3173f193e9f148d8266556483ff592490c7414ccc5107b263cbe97947, 0x9dce9691fe3f9ccc99b4a29e7cb61f070e183297378bf90deaa6154f23572f80, 0x105e523fb31bfd49ead3d5dcb3c33f7f3712d22c3e94b3ea551d71208ca4fdcf);
    e := SqBy(PRIME, 2, e, 0x9dce9691fe3f9ccc99b4a29e7cb61f070e183297378bf90deaa6154f23572f80, 0xff515475493b7b3ac7a517136efccf510aa2a5102899c8fc8cc839b97a9867a3, 0x61470b661ea5a94d977f3aedefd3b2eba57cc51f1154a9d1d04cf40b28c827a3);
    e := SqBy(PRIME, 2, e, 0xff515475493b7b3ac7a517136efccf510aa2a5102899c8fc8cc839b97a9867a3, 0xba5e6a37a28dbc45269ecb71eb7eca1929d8e7bc9584233b9ce7ec3852163dfb, 0xfea32019349d250659177036d833bb61eda6468b29c90bdd1d15ef1fba91ac32);
    e := SqBy(PRIME, 2, e, 0xba5e6a37a28dbc45269ecb71eb7eca1929d8e7bc9584233b9ce7ec3852163dfb, 0xdf800f85a58455b60bced1ef1029e6935d98e54f75cadd086ef7912a961c4d19, 0x87ad552b8cd0c98a64126b105557ba16782d4e28a61885eba5a969b713f6b900);
    e := SqBy(PRIME, 2, e, 0xdf800f85a58455b60bced1ef1029e6935d98e54f75cadd086ef7912a961c4d19, 0x3352e8d3bd9c3406f6fed1e5e1f2e8489a9dfca644fba47e38236fd20478bc3b, 0xc3205b1b20135bee242160d31e6e81fecaaf4fdf752666ee4d40a423c3c8afca);
    e := SqBy(PRIME, 2, e, 0x3352e8d3bd9c3406f6fed1e5e1f2e8489a9dfca644fba47e38236fd20478bc3b, 0x72c62da4cba8986ec532d91fa658c910625998bb1de38226224872bb8cbf774f, 0xa4a239e633c4f37ae0c55c41a5e56362b307ee1ebf2c888d0c2791cb308c1b6);
    e := SqBy(PRIME, 2, e, 0x72c62da4cba8986ec532d91fa658c910625998bb1de38226224872bb8cbf774f, 0xff04793e425a4ab5ab19cf83ae09887993fcd834e1ba30a891ce03b8e4b5d6b2, 0x33751a119be5a44eb309ee4dc6a130a0a5c32ceb994eef0f0601609d3d394c51);
    e := SqBy(PRIME, 2, e, 0xff04793e425a4ab5ab19cf83ae09887993fcd834e1ba30a891ce03b8e4b5d6b2, 0xe6f9def08c99a118e3ecd841dae1e83ef6a5dc05e70a5de66b53acdae0518b95, 0xfe09e99f0997c723dba73bd73352062b3f1081743881e7856c1a7964848f77d1);
    e := SqBy(PRIME, 2, e, 0xe6f9def08c99a118e3ecd841dae1e83ef6a5dc05e70a5de66b53acdae0518b95, 0x1372a1dfcbaec08b56853a8ae6e38a96d10d3a17627f11f6ee2232c20ac0f4f5, 0xd065f07c7f2196b22b623be8033ddfd4f162201cc0c1881b7a8372bfaa5bd03c);
    e := SqBy(PRIME, 2, e, 0x1372a1dfcbaec08b56853a8ae6e38a96d10d3a17627f11f6ee2232c20ac0f4f5, 0x2dc299ecc3f56106c86b250ccf03e3b95ddd4f70ebcd3261bbae90a005ec3e31, 0x17a375bcb62d16a3f8ac1a2cf54436d9e9b3ed7afbddf857203f4b888084bb8);
    e := SqBy(PRIME, 2, e, 0x2dc299ecc3f56106c86b250ccf03e3b95ddd4f70ebcd3261bbae90a005ec3e31, 0x26847c4ce9036c2664d3c41b96534086b1a080b4646d0ebb123ff58414ea0d3b, 0x82dfe0aec781f43856c4bb80a0fe70ecbda4f3d5abd2ee7c43c03d3717647da);
    e := SqBy(PRIME, 2, e, 0x26847c4ce9036c2664d3c41b96534086b1a080b4646d0ebb123ff58414ea0d3b, 0x631a0ad9ae1ecbc8751d3108ca9a0cdb5d8da32a6081bc0b8629f69a55b3d540, 0x5cb997746a381f0ad436476718b0c4fc82ff8728778aa9d26b9fbb4ed28c9a7);
    e := SqBy(PRIME, 2, e, 0x631a0ad9ae1ecbc8751d3108ca9a0cdb5d8da32a6081bc0b8629f69a55b3d540, 0x38dafdb387b08962f6b30c55722d5d05e87cb1a1462f9bb284091bbc3da8c23c, 0x265d270ab7b6119c0f344c21d1b300b07c015782605097985ea4a0cbd485323c);
    e := SqBy(PRIME, 2, e, 0x38dafdb387b08962f6b30c55722d5d05e87cb1a1462f9bb284091bbc3da8c23c, 0x9413aa888bab554c20d7749c2f8d28f1aac9960084bd1ccf41faa7145d947b6c, 0xca08a53a92d3732dd6091dc0e70eb4a1012f45732febbc78212db2443757d5c);
    e := SqBy(PRIME, 2, e, 0x9413aa888bab554c20d7749c2f8d28f1aac9960084bd1ccf41faa7145d947b6c, 0x44f32d6e0c294317179b5729c450e901f3f8b92c66532336886e229e346d1e9d, 0x55a6beb0f90337139229b4ff46e5963b324f2008df642a2a270eb9f2cc0c290d);
    e := SqBy(PRIME, 2, e, 0x44f32d6e0c294317179b5729c450e901f3f8b92c66532336886e229e346d1e9d, 0x79dea025cfa5db09e01c7d2991840f6d313a3c4a27d3f70c7ae2d9fda83d684b, 0x12921721d002f8b05571e3d9ce5967d4692b03ef6146b8d19e66d93ecae23c02);
    e := SqBy(PRIME, 2, e, 0x79dea025cfa5db09e01c7d2991840f6d313a3c4a27d3f70c7ae2d9fda83d684b, 0xfceca7d8c95e0ad3406b0699ac72eb8a99733c21b954bc2011bb017382ee5170, 0x3a0434fe1e126ada1f352242d40cefe6a7781e024cd8a4b65e8f0f9834b34b77);
    e := SqBy(PRIME, 2, e, 0xfceca7d8c95e0ad3406b0699ac72eb8a99733c21b954bc2011bb017382ee5170, 0xdd29c4ce8237152bc5d903be81b20391be35494d8853ae8886663547f9c374b6, 0xf9e2c539ac13be39adb92566be75cb6aee6c6c0efd7bc867eb0f4216b39b63b6);
    e := SqBy(PRIME, 2, e, 0xdd29c4ce8237152bc5d903be81b20391be35494d8853ae8886663547f9c374b6, 0x59fca54a09e36826e41da48ab8ab225dcdef050d4e163b48640dc8d2ced1b44b, 0xbf11249ded56d2c9b530d4e72d4a457c5126092453d44a516e99e199c05842e7);
    e := SqBy(PRIME, 2, e, 0x59fca54a09e36826e41da48ab8ab225dcdef050d4e163b48640dc8d2ced1b44b, 0xd10430b057b9d26cfa5c3f2049afe90bca4c05f9faf003da763fce6494365669, 0x1fa1a4436efdc08c42a5f2ebebcaf4d411015357967520c3edcaa967fec6c870);
    e := SqBy(PRIME, 2, e, 0xd10430b057b9d26cfa5c3f2049afe90bca4c05f9faf003da763fce6494365669, 0x51250c976fc433d738eb896afb498b024136a59953e6b536fa2956f37e9e50ed, 0xaaa7d79228aa99546eaf3b59ae7e976fcac1459a93ec03f01327f979852799dc);
    e := SqBy(PRIME, 2, e, 0x51250c976fc433d738eb896afb498b024136a59953e6b536fa2956f37e9e50ed, 0xdcac0c51bc5e0643b1e5d39f33376c3fcd80aa01e8a3d6be094b52094462bc9d, 0x19b8775492d77ae91677952f39ba4ab6c7bc3cb2fcba4b513bd43a89fa41c134);
    e := SqBy(PRIME, 2, e, 0xdcac0c51bc5e0643b1e5d39f33376c3fcd80aa01e8a3d6be094b52094462bc9d, 0x77784d9168b3e497eaef80bf53c3ab5bad87dd6c43ce61b43e5cfb1317152310, 0xbe3828cdc866a5ab5d9918abb994d0e9b220595c1b72f9658e5489c0bbea2ac7);
    e := SqBy(PRIME, 2, e, 0x77784d9168b3e497eaef80bf53c3ab5bad87dd6c43ce61b43e5cfb1317152310, 0xb45e8fc9900a5f5e42178caf29a566226da1c7b7387337209e0773b923b5ba34, 0x37c110a636eb436588201c8b02aa53310fa5ff53454283c3c88e114d7e485934);
    e := SqBy(PRIME, 2, e, 0xb45e8fc9900a5f5e42178caf29a566226da1c7b7387337209e0773b923b5ba34, 0x865bad69b01e2031ead20d1cd6ec5fa7ad579b1a7b75be868a3e9612be323b91, 0x7f151d21da6c487b09618e0a8b8dce1b3cc3e8565cc8b7c444798cffb13aa101);
    e := SqBy(PRIME, 2, e, 0x865bad69b01e2031ead20d1cd6ec5fa7ad579b1a7b75be868a3e9612be323b91, 0x756ff48f70eb72e8c91fe5e53c8e4c918060c3b0b32f8393bf272e3af3bb7d75, 0x46841a5fa97edd2931aee9fbc45868d8dde1d35dff87aaf866be4790653b5554);
    e := SqBy(PRIME, 2, e, 0x756ff48f70eb72e8c91fe5e53c8e4c918060c3b0b32f8393bf272e3af3bb7d75, 0x2336da87662649702abe7ce40158fc0dafc57cde1ba57e95f734e8aadf94f4b7, 0x35df8681511c6957b4d77130a4b0bf4b76bba0d18af666b86d768a2a3b2b7d3e);
    e := SqBy(PRIME, 2, e, 0x2336da87662649702abe7ce40158fc0dafc57cde1ba57e95f734e8aadf94f4b7, 0xa0061fce163ff80ed8109caa126688d03d04bed76f6272af1c2a7242d34136ed, 0x4d80b81f6707d53b2d195ad8af9af2dbaed150568e105a0df2ce63423bbdc1c);
    e := SqBy(PRIME, 2, e, 0xa0061fce163ff80ed8109caa126688d03d04bed76f6272af1c2a7242d34136ed, 0xd9fbac47f33b7df7da69cccb73926241dcf5d6872ae30a94bdf5aad59aad44c0, 0x6407a7e7817438449b2953cf5e296c1ec9c4dead6037b38d2f51b379fc8a6d57);
    e := SqBy(PRIME, 2, e, 0xd9fbac47f33b7df7da69cccb73926241dcf5d6872ae30a94bdf5aad59aad44c0, 0x133b488c4d1fdfbaa263c176ee9ea9238d6494e7a7ac932bd5456e3e42fc1585, 0xb99ca17dfcff36c53b0f29e0e7b33db3f94e8d058437ca59dcad1ac145058585);
    e := SqBy(PRIME, 2, e, 0x133b488c4d1fdfbaa263c176ee9ea9238d6494e7a7ac932bd5456e3e42fc1585, 0x7c403a3e0ad681d0f4487212bd706ebc512b143a45dc1d909ab5f82c6d8d783, 0x171da7f5a1f5aac8cc108e7f937be4b77e1c6b6f9bea0c2f7d9b3c3d331c06a);
    e := SqBy(PRIME, 2, e, 0x7c403a3e0ad681d0f4487212bd706ebc512b143a45dc1d909ab5f82c6d8d783, 0xf4110893fc9a706912bb506274df96fb2087dd5530d4e2441b987f75aa9c802b, 0x3c4e48898313ad7f0f14bd7981eec52a043340c4c2c8f37df43f5ea41f3322);
    e := SqBy(PRIME, 2, e, 0xf4110893fc9a706912bb506274df96fb2087dd5530d4e2441b987f75aa9c802b, 0xf19aed42ae67a1eeda183f76e6c0f5b78e72f6fe0f5a0007b8bbacc91a9776f6, 0xe8b0797d2628019d30c52a8deb46c9f481ffcb6f45846af1c7bfa1958a046fbd);
  }

  lemma ChainPRIME_4()
    ensures Cong(Power(2, 0x1fffffffe00000002000000000000000000000001), 0xc04de765298b256f576ae53a4b1db9bb0e5c757d1823d5c00a9d057b632aaf02, PRIME)
  {
    hide Cong, Power;
    ChainPRIME_3();
    var e := 0x1fffffffe0000000200000000000000;
    e := SqBy(PRIME, 2, e, 0xf19aed42ae67a1eeda183f76e6c0f5b78e72f6fe0f5a0007b8bbacc91a9776f6, 0x76fd0a480aa6e6c93c5c7fe3caca1b5371ca3a249247ce1f672e9f7da1c3d28b, 0xe405107ac0828c56ac925193e4b2578e27b348bcac61deabaf54236a1c481e27);
    e := SqBy(PRIME, 2, e, 0x76fd0a480aa6e6c93c5c7fe3caca1b5371ca3a249247ce1f672e9f7da1c3d28b, 0xd2c1828a4a676222078553990a9745c2aae6708840404c4bc209951716d7ed26, 0x374e3f97f3eedf587262353c4969ef22573b5ebeca32983d9f196abbd3ed95ad);
    e := SqBy(PRIME, 2, e, 0xd2c1828a4a676222078553990a9745c2aae6708840404c4bc209951716d7ed26, 0xb4bf068582a4c08b44a2517ded118beb5438e35fd4a027fca38b969278e7998c, 0xad820c71a6a89798118cea24db053cbe3a3ae8f3d939e26fe7faeadbbf6437e8);
    e := SqBy(PRIME, 2, e, 0xb4bf068582a4c08b44a2517ded118beb5438e35fd4a027fca38b969278e7998c, 0x5cb0d1f1df0d4cacc5b321af8ada90cdbf74fe2693d1a0f92e384c94cca90db9, 0x7f9d2fb6fab858125e522aabb452d0f397685287ca7c7ad29efb276b15e86929);
    e := SqBy(PRIME, 2, e, 0x5cb0d1f1df0d4cacc5b321af8ada90cdbf74fe2693d1a0f92e384c94cca90db9, 0x96ca39c35f0e3e195fdddbd19897efcbb703f3d9aca945b09dfef6a723ff3ad4, 0x218f910752a0a5263d4e4f040110ee92ed5a1d154b0458e879d3633d2d00eb23);
    e := SqBy(PRIME, 2, e, 0x96ca39c35f0e3e195fdddbd19897efcbb703f3d9aca945b09dfef6a723ff3ad4, 0xa2073bb5dcd1c1697ffecacd13ff8ca200bb78e7d3cfb334c38a5684538d60c7, 0x58d19b708190e41e2fc80aa0baabaceac0fb70fdcfc864c57dbc5d601bb0a137);
    e := SqBy(PRIME, 2, e, 0xa2073bb5dcd1c1697ffecacd13ff8ca200bb78e7d3cfb334c38a5684538d60c7, 0x9122ed3fef60491af9b5d7b0b04fb6ff92acdc15245d5c0434dee0cb2ec2ab26, 0x668d27c6e3e609034557aa502a1e9d89bac40c14f6951ec7723c64be64f6d075);
    e := SqBy(PRIME, 2, e, 0x9122ed3fef60491af9b5d7b0b04fb6ff92acdc15245d5c0434dee0cb2ec2ab26, 0xc068bb8cf52fa9c4e8fb5a08fb0c645168f79df267f75e57abc86aa54a609541, 0x52489586a04eaf1a40a5468ff33a3fb941efee6dcc7a52e78917f2d7ca5ccb9d);
    e := SqBy(PRIME, 2, e, 0xc068bb8cf52fa9c4e8fb5a08fb0c645168f79df267f75e57abc86aa54a609541, 0xd842ac1d266024334ee3aa4f0a95e73b39c8713e604f2dd124c63a0525d960af, 0x909d442cec53355e6227e408cafb117e6a24b5b6f3917504278005814a14a62e);
    e := SqBy(PRIME, 2, e, 0xd842ac1d266024334ee3aa4f0a95e73b39c8713e604f2dd124c63a0525d960af, 0x25c00d0e2c1e484e24c3f2e5dd3c1baa4835dca7015691d4a3e59d8011ed314d, 0xb6b093cf1a31c95a8b43e6d0d7248edf0df2b95c9ca52962dd4bfc226ebb79ac);
    e := SqBy(PRIME, 2, e, 0x25c00d0e2c1e484e24c3f2e5dd3c1baa4835dca7015691d4a3e59d8011ed314d, 0xd47436a315b1dfadbd151fa5c88d4368bda7350724da1aaa7f02a489e73a8284, 0x59113d9b43e7370a8c76e718ec224ba82e6713bc990c3f1605589395b29f15b);
    e := SqBy(PRIME, 2, e, 0xd47436a315b1dfadbd151fa5c88d4368bda7350724da1aaa7f02a489e73a8284, 0x55c3b0f5dba8fbce20f5398f0b403ffbfdd7da6ba08c238871a626a6c254b6dd, 0xb050af405bb427f5ceb89d91fa617eba9684043e6c2f57432ae2b07523fa62cd);
    e := SqBy(PRIME, 2, e, 0x55c3b0f5dba8fbce20f5398f0b403ffbfdd7da6ba08c238871a626a6c254b6dd, 0x66216038361a1e38dacc1feb958a78506914f691cb900f318c5fba4c682183c1, 0x1cbb891a71795de75aced6d5fddacf818b3b0948882c98c38c187680f07a88f8);
    e := SqBy(PRIME, 2, e, 0x66216038361a1e38dacc1feb958a78506914f691cb900f318c5fba4c682183c1, 0x389688a0041cd3107822e70e22d1aaac9686f4c18200ce2e44269c3a4efe9fee, 0x28be9d06e68394c3244eee2f285cd50e8e10e6e10a6eb132b132ae32436d886d);
    e := SqBy(PRIME, 2, e, 0x389688a0041cd3107822e70e22d1aaac9686f4c18200ce2e44269c3a4efe9fee, 0x8d826298c67c70ccce8b278c1c827c6a8269b5d19b3acec668e4afe7b44ada78, 0xc82344a72be0accb6722291d5fffcc2b0e31ad3fbb8772247920158ec195934);
    e := SqBy(PRIME, 2, e, 0x8d826298c67c70ccce8b278c1c827c6a8269b5d19b3acec668e4afe7b44ada78, 0x3c1daf29b9891a9a64a33498458b03f19d508b4ee3acdb1c73e4c36c08f52b0e, 0x4e38e304e200e0cc535688fe0a2bc689cbbac3eb29d53870996515c0412492ce);
    e := SqBy(PRIME, 2, e, 0x3c1daf29b9891a9a64a33498458b03f19d508b4ee3acdb1c73e4c36c08f52b0e, 0xb8c2a3376aaeb58c93a878f9dc57bc2346297409e4e43e1cbc2516fdbb8cdee5, 0xe1ded8cc4644d8b832eba8c0989b273c4d96ee10b1ee26c687131b16b832a21);
    e := SqBy(PRIME, 2, e, 0xb8c2a3376aaeb58c93a878f9dc57bc2346297409e4e43e1cbc2516fdbb8cdee5, 0x55ae29c9c61ab809a1904deeacb87e5c3ef8c93584d0d5231e8bf976ddddfb66, 0x85585e9bf6c0d23a2d7298e070b45737f37c2a35ff417139e432f1adc354028d);
    e := SqBy(PRIME, 2, e, 0x55ae29c9c61ab809a1904deeacb87e5c3ef8c93584d0d5231e8bf976ddddfb66, 0x89602d6eedf37128ea7a47ff80958ccd16fc9a5da08e850e6e1750410811ad70, 0x1cad1e3cef566942a3402b48dccdc752ccc0443f2596a264695a1daee71480cc);
    e := SqBy(PRIME, 2, e, 0x89602d6eedf37128ea7a47ff80958ccd16fc9a5da08e850e6e1750410811ad70, 0xb8a5d525f5c68a57b8a1ff8dcd2b14b19ce706b7f0048bb41840f5d51ef2e81c, 0x49b814c31fa94a2e6fc23acf0d97d742a1f32974dfd7d9aa887fc6e5a092571c);
    e := SqBy(PRIME, 2, e, 0xb8a5d525f5c68a57b8a1ff8dcd2b14b19ce706b7f0048bb41840f5d51ef2e81c, 0x3b60c409ec656ccb649086c97c88f880ece2552eed659065f5db475c1f7e5b7e, 0x852ecdd38ae3373ccdc0def7aa8644443f00f8e612721d6333a19be1e81b986e);
    e := SqBy(PRIME, 2, e, 0x3b60c409ec656ccb649086c97c88f880ece2552eed659065f5db475c1f7e5b7e, 0x60610c0b560fb33e76082829537ff1bd05bfcbb848fdc98c0368974b1c06136a, 0xdc5bef03e4cfd8551718a2b725b27c8dbfc4c324b25e03190631834674b4166);
    e := SqBy(PRIME, 2, e, 0x60610c0b560fb33e76082829537ff1bd05bfcbb848fdc98c0368974b1c06136a, 0xce9d4568a109bd8139f5a89c7b9aae4dc057ad2b9562a6b2b8bd6ee60f459a04, 0x2448edd2c5fcfcb94aa56f075130ba2f6b3c818e5ba45c45dd15ae65f4d4b220);
    e := SqBy(PRIME, 2, e, 0xce9d4568a109bd8139f5a89c7b9aae4dc057ad2b9562a6b2b8bd6ee60f459a04, 0x98b4878fbd4a0e750148cde71d68b256c2ad7044247ab282be20e279bc1f8ea4, 0xa6c17c533f1440d37f7a1a25d604e181f33ce39a6b3236e851e37850e14ebe94);
    e := SqBy(PRIME, 2, e, 0x98b4878fbd4a0e750148cde71d68b256c2ad7044247ab282be20e279bc1f8ea4, 0x9a92406a766466f99fd7d30589a8f72b8b2757c25149c07327a3412c7b1c9663, 0x5b16e049f5c9ebf200b54b6363b41766e959fe1e3087c838f6b67cbfbfea3d53);
    e := SqBy(PRIME, 2, e, 0x9a92406a766466f99fd7d30589a8f72b8b2757c25149c07327a3412c7b1c9663, 0xd6b4a3e568f68535a932cddc2f4ede8dc9fa50efda5ffc54116198903dc65a7d, 0x5d54490dfd6986efde8206e44112096778328f0655e744e953e924d3ddc63034);
    e := SqBy(PRIME, 2, e, 0xd6b4a3e568f68535a932cddc2f4ede8dc9fa50efda5ffc54116198903dc65a7d, 0x162ad5bef5c7f6cb38821cd01a0cd5da1a5ef2154025823dc07a7728066ea93f, 0xb412817b2318341a5b1273541daa9457ac8c85d2069f453f7a3e19b85b168836);
    e := SqBy(PRIME, 2, e, 0x162ad5bef5c7f6cb38821cd01a0cd5da1a5ef2154025823dc07a7728066ea93f, 0x6d95f5949786900cdcc368f2a7da99a77995dafa9e3a3ed2f687ab68eceb3a1c, 0x1eb63e7a949bb60113c1b609dd04894132f69b5ea213f384264d5f416e2fc9b);
    e := SqBy(PRIME, 2, e, 0x6d95f5949786900cdcc368f2a7da99a77995dafa9e3a3ed2f687ab68eceb3a1c, 0x903c602ae22cd61c89239c7d3938a1f04523536e776721616aee7ca2184b415e, 0x2ee90af8827fc48e138d4e83f23afe813ed5ec810de2f028b763529abbb28e4e);
    e := SqBy(PRIME, 2, e, 0x903c602ae22cd61c89239c7d3938a1f04523536e776721616aee7ca2184b415e, 0x4e3f53c0b5a3fb86d85202cb13194f7997b316e82b9d56947901af9151fdcecf, 0x5143fa6dc7f0a1228d73d98f64a8c229049cc89b27e6a51d6d59b2385438f04b);
    e := SqBy(PRIME, 2, e, 0x4e3f53c0b5a3fb86d85202cb13194f7997b316e82b9d56947901af9151fdcecf, 0x81cfd3f0ec3b1ce3ece714874ef8e20d65f14da74a4676bce7c43f93f20ae740, 0x17eaa6b3dada818907145226e761a61adbd2ee758ae9b1529fa05e9487d31bdf);
    e := SqBy(PRIME, 2, e, 0x81cfd3f0ec3b1ce3ece714874ef8e20d65f14da74a4676bce7c43f93f20ae740, 0x84ea712b906a2efd538d919952c02abec4f19532dff971e043b23ef49c83c68, 0x41d31c517efbbf2ce4f5920aa49bce2ca2d85ef7c0a87c752f0b72c367e3ac68);
    e := SqBy(PRIME, 2, e, 0x84ea712b906a2efd538d919952c02abec4f19532dff971e043b23ef49c83c68, 0xdc6e4d422b1761d235d18b8c9125f60875f65a372f57a1c400669b0afaf2357, 0x45029b68479b9ae2ba7eca33b905610182253cf9ef0fb58e6d606eeeee3917);
    e := SqBy(PRIME, 2, e, 0xdc6e4d422b1761d235d18b8c9125f60875f65a372f57a1c400669b0afaf2357, 0x5fca99c32614bdd5175da40cc1d1f1c040dc23b81571a421df61509e5c0f519a, 0xbdcdc450f40bdb8fe38c40ef9affee96cdeb29212ac52902ee70dc143c6a09);
    e := SqBy(PRIME, 2, e, 0x5fca99c32614bdd5175da40cc1d1f1c040dc23b81571a421df61509e5c0f519a, 0xdc00f92ff2d3e673a2313db0620dd5850e91fbc56764cd65935945a4a012f221, 0x23d7fe75fe6e545d6a62c808c7af18bb5d5c8cbfa728a46c19a147fb4604217d);
    e := SqBy(PRIME, 2, e, 0xdc00f92ff2d3e673a2313db0620dd5850e91fbc56764cd65935945a4a012f221, 0xc9778fcd426c85be3625cd0b5116aa6c185e46c83397520806d990440ea68423, 0xbd11ac4c18fc2fbd6120048a1977d2c517d076db45d432981303dbebdd001be2);
    e := SqBy(PRIME, 2, e, 0xc9778fcd426c85be3625cd0b5116aa6c185e46c83397520806d990440ea68423, 0x348706fbc5711166c93def2b296155557cb00f3b69c5205d177d53ed2619b72c, 0x9e8cf7a7f27617590c3ba8e9a585f42e82b8e48bea0f2b1c52331e91b0819a63);
    e := SqBy(PRIME, 2, e, 0x348706fbc5711166c93def2b296155557cb00f3b69c5205d177d53ed2619b72c, 0x143fed71706bfd516096c81ea8ff60533886c3cc8a161f017e27602bb217c6a1, 0xac7220eb0b8133ed2ea816200d66cce64b5427bbdf0929e77200bbd586fd711);
    e := SqBy(PRIME, 2, e, 0x143fed71706bfd516096c81ea8ff60533886c3cc8a161f017e27602bb217c6a1, 0x9c0f0b69028475a98d04aa4710f30aad79e64ba4defff435aaaa66f2a1166638, 0x19a0d10753b7e383c83848675a12af5159f0d958c48f12784c1da6f720af4f7);
    e := SqUpBy(PRIME, 2, e, 0x9c0f0b69028475a98d04aa4710f30aad79e64ba4defff435aaaa66f2a1166638, 0x6026f3b294c592b7abb5729d258edcdd872e3abe8c11eae0054e82bdb1955781, 0x5f2256cab104430132698fdd59f932c615c774a640cae7db15c372558724ab41);
  }

  lemma ChainPRIME_5()
    ensures Cong(Power(2, 0x1fffffffe00000002000000000000000000000001ffffffffff), 0x19cec58f06351f91fcbc5dabdb7f6b16dccd35b6fb1c73fb96ac876a8406177d4, PRIME)
  {
    hide Cong, Power;
    ChainPRIME_4();
    var e := 0x1fffffffe00000002000000000000000000000001;
    e := SqUpBy(PRIME, 2, e, 0xc04de765298b256f576ae53a4b1db9bb0e5c757d1823d5c00a9d057b632aaf02, 0x2c68fdaf690851f7c9b806781bc52ee2137a3c3659220e982375f2e6f797928e, 0x9074f2cd52c8619b3686b43073e6b7d1e4420778fa21323936bda881874bd68a);
    e := SqUpBy(PRIME, 2, e, 0x58d1fb5ed210a3ef93700cf0378a5dc426f4786cb2441d3046ebe5cdef2f251c, 0x778e02efc20638c598be0e4a2024959d53907bc5cb7bb6bc104d95d0de899ba7, 0x1ed1090db6e28bf98cacc5de10add0cba04e1b9f6f5877cf5586fefff0e08097);
    e := SqUpBy(PRIME, 2, e, 0xef1c05df840c718b317c1c9440492b3aa720f78b96f76d78209b2ba1bd13374e, 0xe9caf36fd7944a6299958c8551a098b590876b86606c3533c9a04c980dafe9c8, 0xdf55560980ebf3132ca943ae2dfc6298bd24fb58543c71477ec72761a0294e04);
    e := SqUpBy(PRIME, 2, e, 0x1d395e6dfaf2894c5332b190aa341316b210ed70cc0d86a67934099301b5fd390, 0xe1fd25c9ded3e9257699d7aa2eca61b852a888c4aa50841692ed56e57315d121, 0x3560c401dffb2e64edbc17d0dd82ebd96ec27a8bd11d8bf92992e86665f5f2021);
    e := SqUpBy(PRIME, 2, e, 0x1c3fa4b93bda7d24aed33af545d94c370a551118954a1082d25daadcae62ba242, 0xebb82395210180113aeeac1ff52edf5e3aec985e3acf07d64a0ee306fd5e95f8, 0x31dfbdb055f177c20ababa9605deab38d0faa4890143b6183d88b2fe07c5afcf4);
    e := SqUpBy(PRIME, 2, e, 0x1d770472a4203002275dd583fea5dbebc75d930bc759e0fac941dc60dfabd2bf0, 0x29a5eaa5943440bd45c41d36e6d83a704955e8c0adb7fe88413d7734c34a458c, 0x3642e571f3bd79bd2279995e58d3d52413626827f55cfa9bec019bb3a1b5fc48c);
    e := SqUpBy(PRIME, 2, e, 0x534bd54b2868817a8b883a6dcdb074e092abd1815b6ffd10827aee6986948b18, 0xfc782dd8ea5fac22a54b0cfc696757a16122c10d76140ec3f647643450958c2e, 0x1b1a42c5830ddb45574e4d5377ad0414c13816ba1279b72f242cd2b6114279ee);
    e := SqUpBy(PRIME, 2, e, 0x1f8f05bb1d4bf58454a9619f8d2ceaf42c245821aec281d87ec8ec868a12b185c, 0xfa89c957197de383cde197ebc224355a26dc7c5ad5f8567785193956156c9059, 0x3e3f34abc27eb85d685b9e6de41cbe3a10388d2910021e620307e72b12c332f49);
    e := SqUpBy(PRIME, 2, e, 0x1f51392ae32fbc7079bc32fd784486ab44db8f8b5abf0acef0a3272ac2ad920b2, 0xc083e53d7d5777d48e0643a50be41361ced913200c2b87b52944c203b1450d03, 0x3d4c59da0c239d0b0c7add8abe79c7c0e732c2dedbb19ce077fae53f0d754113f);
    e := SqUpBy(PRIME, 2, e, 0x18107ca7afaaeefa91c0c874a17c826c39db2264018570f6a52898407628a1a06, 0x1699ba15694da973deceea4896ee49f933d297dcca08648e44102158ea4e5123, 0x243186f44dbfaa05e50ecd9c92d013675f26f70ffe16a95459d527e98413118ff);
    e := SqUpBy(PRIME, 2, e, 0x2d33742ad29b52e7bd9dd4912ddc93f267a52fb99410c91c882042b1d49ca246, 0x14c1f06075a72610ec48fc7352aa6093013da193fd8f90758e36539fc281a411, 0x7fb212e93cc7c3d982ccecfb3554ac9ab228c6d9bfe646a27de0a39a654f8ed);
    e := SqUpBy(PRIME, 2, e, 0x2983e0c0eb4e4c21d891f8e6a554c126027b4327fb1f20eb1c6ca73f85034822, 0x6fcf6d43503b54d3c4435e4739b8e4a3d9d227867043cbce0f30495134808399, 0x6bb81ed9cdd959d2b1ac04b18a89591711c376ed603fb88bdaa03971b615f15);
    e := SqUpBy(PRIME, 2, e, 0xdf9eda86a076a9a78886bc8e7371c947b3a44f0ce087979c1e6092a269010732, 0xb890e0e8ceb568d67a2f3c79d062ef167403ab6f8cb1cac7298a59ee162b6c22, 0xc3562349c79c816ac8ad1bec95c0412d03a828d4e7cf6493cf765ebe0393a65e);
    e := SqUpBy(PRIME, 2, e, 0x17121c1d19d6ad1acf45e78f3a0c5de2ce80756df1963958e5314b3dc2c56d844, 0xfa3385d03e263bf78e2e912f2a822d6037599b816acbfa93f1dc6c5ff99541c6, 0x214425533e6d8962df302f0a177c7289da3fa112b389805f85fdba7b295326fb6);
    e := SqUpBy(PRIME, 2, e, 0x1f4670ba07c4c77ef1c5d225e55045ac06eb33702d597f527e3b8d8bff32a838c, 0xc7b352042101608186e4fa15df41ca6b33a8f31712c9e1e1d78e9e43bf3b8c06, 0x3d222aee913589835f8a92cd990544e294d8b5186c034688df7e8569089b2f776);
    e := SqUpBy(PRIME, 2, e, 0x18f66a4084202c1030dc9f42bbe8394d66751e62e2593c3c3af1d3c877e77180c, 0x916d1316b74ce3c1f384f54aaf359f88ba56fd67acac4a6d458944d848116079, 0x26f211c7b4c94e129e95bae2651a60a820cb0a21b7aea1b4af776d51d1aa71fe9);
    e := SqUpBy(PRIME, 2, e, 0x122da262d6e99c783e709ea955e6b3f1174adfacf595894da8b1289b09022c0f2, 0xd180183cf04835441afd05b85dd437aeb808da560a592cc2ff101d2d28559aa6, 0x14a72f8654419433856d20ffc9fde6b74ba9ad49412484a255d94aea516a1b5e2);
    e := SqUpBy(PRIME, 2, e, 0x1a3003079e0906a8835fa0b70bba86f5d7011b4ac14b25985fe203a5a50ab354c, 0x7422e24d5e3cfbbff6985823976df8b2516ef86f9109c0c1c082625971531b13, 0x2adc99eb1ac1049a5146c014d9d558da39280b29fda7092cf378f0519b2b28c83);
    e := SqUpBy(PRIME, 2, e, 0xe845c49abc79f77fed30b0472edbf164a2ddf0df221381838104c4b2e2a63626, 0x954570c6ac9165c6b8803ba5b50c453e86225181d0840d8280d262a2afe23746, 0xd2be875cdac27fd5615f1af449016f2aefadb40f310d56cc08eb0245532629a2);
    e := SqUpBy(PRIME, 2, e, 0x12a8ae18d5922cb8d7100774b6a188a7d0c44a303a1081b0501a4c5455fc46e8c, 0xbfccb06bfb23dc898586a79bd34527cad35293d31fbaa78d8476a7b1525b046b, 0x15c27a07662ca80983f61db12651acf5b20f602920e56b959b33c3773f43e67db);
    e := SqUpBy(PRIME, 2, e, 0x17f9960d7f647b9130b0d4f37a68a4f95a6a527a63f754f1b08ed4f62a4b608d6, 0xeb59f99d669d57ec7acd9d062dabe153451ef834e0f25a444d26e52647d109ad, 0x23ecc4bad587df812b1bbc765e173c42e571fcd4f21ee07dbb21e508b873af6c9);
    e := SqUpBy(PRIME, 2, e, 0x1d6b3f33acd3aafd8f59b3a0c5b57c2a68a3df069c1e4b4889a4dca4c8fa2135a, 0x5c3b71f27b43741f99ae9311dbc8f48c94a3c71768e432144e90893c27dfcd52, 0x361793f9d56606c7b911938c06264c7b43bedf4b5466ec21b03108b911c8151ae);
    e := SqUpBy(PRIME, 2, e, 0xb876e3e4f686e83f335d2623b791e91929478e2ed1c864289d2112784fbf9aa4, 0x948745a64944869eb84dcbaaaa983b46e88a224c0e8e77a56b2c752d2e5e7e2c, 0x84eb1ed089402b044603a00258b51d4499fc95c2b3734d9096ac9a93d83cc51c);
    e := SqUpBy(PRIME, 2, e, 0x1290e8b4c92890d3d709b97555530768dd11444981d1cef4ad658ea5a5cbcfc58, 0x739d3dfbebcc73c276da348aa8fbde3bacbf16382e091b66c8e67e7b7a256241, 0x158b2c00c8ce105c95fd0cd22738b5c3c47709b1e86a5df47589bcfb8a0280401);
    e := SqUpBy(PRIME, 2, e, 0xe73a7bf7d798e784edb4691551f7bc77597e2c705c1236cd91ccfcf6f44ac482, 0x5dfe789c52ea2ea21f8e19633ae19a40848a8fc8208d9937545d7ce107d8c0c9, 0xd0da99168046554f29bdb6bfd6ab5879df1417c55f56e011457d469b05d96ec5);
    e := SqUpBy(PRIME, 2, e, 0xbbfcf138a5d45d443f1c32c675c3348109151f90411b326ea8baf9c20fb18192, 0x49f5abf3b13188f47b9b7f5dbed51a54403de0d6bc97b85c679390ee300b6ed9, 0x8a0b82551721f170af949de0c7831c35076de3a8da607941675ee362a692f795);
    e := SqUpBy(PRIME, 2, e, 0x93eb57e7626311e8f736febb7daa34a8807bc1ad792f70b8cf2721dc6016ddb2, 0xd1b2a6e2ad335a84734158f2577cb912e8c19666309d3184fd702c1cfad69bcb, 0x55781f4e91739dc4b461307be090fbdab786a645a961f1ac64ae15dca041cc07);
    e := SqUpBy(PRIME, 2, e, 0x1a3654dc55a66b508e682b1e4aef97225d1832ccc613a6309fae05839f5ad3796, 0x76cf14852932a79f907820e57efa601e11a7005375de7149a947d0452125961e, 0x2af14c4ad2a5a9ed681c1ea78b3f86ed3ff0013dda30e5f0501a8eddfd857ca3a);
    e := SqUpBy(PRIME, 2, e, 0xed9e290a52654f3f20f041cafdf4c03c234e00a6ebbce293528fa08a424b2c3c, 0x31b59fee8ca946468f370e041a9e125ceda15b3d5845378e41443eafc8ebe072, 0xdc8e39b4a86fd24b7e9c9351803f7de659e4feee0a1b24cae4bab51de61f3262);
    e := SqUpBy(PRIME, 2, e, 0x636b3fdd19528c8d1e6e1c08353c24b9db42b67ab08a6f1c82887d5f91d7c0e4, 0x42e6f8463285b3e700a86302699ca7bfe7d782e5f9c93d5cbf58ff3a553d4c17, 0x269c20539af3b575740d898e448ef03d4e98df4c0070c63df9830faa7cee8107);
    e := SqUpBy(PRIME, 2, e, 0x85cdf08c650b67ce0150c604d3394f7fcfaf05cbf3927ab97eb1fe74aa7a982e, 0xd27483cde2b5b19f209e04842b9a7944ede1aa926843b54cbd0b46f9d76a9e3a, 0x45efa19d49ceda3160290de5c404ef70f086a17f8f7fc806ced30877591bf5f6);
    e := SqUpBy(PRIME, 2, e, 0x1a4e9079bc56b633e413c09085734f289dbc35524d0876a997a168df3aed53c74, 0x9f34f80860f2e647921dcb2503f5e80e13de452aa6c8e756268757f04d402110, 0x2b40d7518ad9d13c96ea5645ac4785354291fe68fdc42f3dcedc83becf5f18c80);
    e := SqUpBy(PRIME, 2, e, 0x13e69f010c1e5cc8f243b964a07ebd01c27bc8a554d91ceac4d0eafe09a804220, 0x991da74ce45f03caf386d121c8ef0a52d7b6a17474e363efcbfffd44e67ea96b, 0x18c0b5c41fca0bf9d8b2768287459b61bae4e8b72738822d73865f574356a256b);
    e := SqUpBy(PRIME, 2, e, 0x1323b4e99c8be0795e70da24391de14a5af6d42e8e9c6c7df97fffa89ccfd52d6, 0x55dfeaba654c127d5e717cc23aef4325cee2b249265ba9bb1b950f850dde4844, 0x16e51d5a6653cba142f8ddf84171c3d0128d7c8dadba9fdf7d02fb7c728147d60);
    e := SqUpBy(PRIME, 2, e, 0xabbfd574ca9824fabce2f98475de864b9dc564924cb75376372a1f0a1bbc9088, 0xa82a83b7e660dfce5aea2329b5f2b2818d6af5af53ec9a8a282711facefc9e4c, 0x7339d6eab022f5c1cb256932e638231845fb47a18eef9a1272c985f985a3560c);
    e := SqUpBy(PRIME, 2, e, 0x15055076fccc1bf9cb5d446536be565031ad5eb5ea7d93514504e23f59df93c98, 0x25e88fc9b9d46bcd0331c456e56a4abb1325b6c352e09bda58266b3f44a00596, 0x1b9df4fc523d12d6dd193ed15e1cfcccb41bb54c4f5b31580846b3955e6986b56);
    e := SqUpBy(PRIME, 2, e, 0x4bd11f9373a8d79a066388adcad49576264b6d86a5c137b4b04cd67e89400b2c, 0x77beff6c06562f52bc19c07dd7fbf4abbc616cb5831c090f9cd6c20445eed539, 0x167433550ee1064a2e099d0fa2a947018e23086e605611ca036896b9977205a9);
    e := SqUpBy(PRIME, 2, e, 0xef7dfed80cac5ea5783380fbaff7e95778c2d96b0638121f39ad84088bddaa72, 0x537a961a7bf266dc74249d7cbb4b58758ca120f15cae7d00ff78fd691e95e584, 0xe00c7fdb2464286317afe459bb1fdc31a3fc2f48e1389d603b5a4f4198464ac0);
    e := SqUpBy(PRIME, 2, e, 0xa6f52c34f7e4cdb8e8493af97696b0eb194241e2b95cfa01fef1fad23d2bcb08, 0x3f7593aec217007238d0207d01ef27bf25a300eede00d50f2257d3f8c51ec354, 0x6ce2e022c364570c33638001483a04c3094e9f65f6643f850a4534991f691314);
    e := SqUpBy(PRIME, 2, e, 0x7eeb275d842e00e471a040fa03de4f7e4b4601ddbc01aa1e44afa7f18a3d86a8, 0xce762c7831a8fc8fe5e2ed5edbfb58b6e669adb7d8e39fdcb5643b542030bbea, 0x3eec52c198c7e8872f0fabbc469bfae3acfae91a92783a9383871f0d8d4c6daa);
  }

  lemma ChainPRIME_6()
    ensures Cong(Power(2, 0x1fffffffe00000002000000000000000000000001ffffffffffffffffffff), 0x16d4b983c056ae847994c6efc70b3483f1272c17ba30fe49cfcde22730dfa160, PRIME)
  {
    hide Cong, Power;
    ChainPRIME_5();
    var e := 0x1fffffffe00000002000000000000000000000001ffffffffff;
    e := SqUpBy(PRIME, 2, e, 0x19cec58f06351f91fcbc5dabdb7f6b16dccd35b6fb1c73fb96ac876a8406177d4, 0xf564794a6638eff5e48898ad035f7012bb9d7aaa11cb6f24a1fa678b0b706b1f, 0x29a09987c73d6b77e3fd324840b6f11e5e9d8af0ba5250d476c24d04504b1a38f);
    e := SqUpBy(PRIME, 2, e, 0x1eac8f294cc71dfebc911315a06bee025773af5542396de4943f4cf1616e0d63e, 0x412a931432f33afd87f5681fd1a5d8287e94fe5644b038318110ec8bd5458192, 0x3ace5de6139e6e6825d6b643719a88826d360c15c46a079311bb86b998d79ca8e);
    e := SqUpBy(PRIME, 2, e, 0x8255262865e675fb0fead03fa34bb050fd29fcac896070630221d917aa8b0324, 0xe58eeb8478f42265a02749a8caee8e939645e66bb27b75dadbf84bacb97a824, 0x425a9713a65c5691247fdcab698222d25ee736163f0684528c8d009a9275cb14);
    e := SqUpBy(PRIME, 2, e, 0x1cb1dd708f1e844cb404e935195dd1d272c8bccd764f6ebb5b7f0975972f5048, 0xae94d570924d85ef78a683a6b8bb3783e664006b9d100eda8e44d3ec44b7efa0, 0x337640497b781c089156ce900c01f5d40ef2bca2c01c700d8a788a8c11adb60);
    e := SqUpBy(PRIME, 2, e, 0x15d29aae1249b0bdef14d074d71766f07ccc800d73a201db51c89a7d8896fdf40, 0x1a47cc54be202502513a2e74b3fa0eed8258e7cfcdeefbf731a32cff0151eeec, 0x1dc3aa2b3e836e55900dc82d7224d5934574b6e08db48fe6c134c032925215eec);
    e := SqUpBy(PRIME, 2, e, 0x348f98a97c404a04a2745ce967f41ddb04b1cf9f9bddf7ee634659fe02a3ddd8, 0xbad2b17c397eee70cf04f0935c563f9bf0e70712a74f1f1dbb50eafbd0bdbe6e, 0xacaa690cda74836f71ef847098578b8dc9b450b2501086c2bbd8a002f6f182e);
    e := SqUpBy(PRIME, 2, e, 0x175a562f872fddce19e09e126b8ac7f37e1ce0e254e9e3e3b76a1d5f7a17b7cdc, 0x552a1b8e98838fca8fdff86910549714ae8eb49f7521310183c7fbae0ae9d52e, 0x2215b5d42dafa8752479d737f87814031a277c6b5e8fe1ceb272264881a9bf81e);
    e := SqUpBy(PRIME, 2, e, 0xaa54371d31071f951fbff0d220a92e295d1d693eea426203078ff75c15d3aa5c, 0xd6f4b7748bbef2f444f00dfb40180ca1779392b4bad4d27851e9de4168932449, 0x7153f4e76d7725eaf8bde88827b867d493a4b76dd0eb9b48d2657b2c0b8cd339);
    e := SqUpBy(PRIME, 2, e, 0x1ade96ee9177de5e889e01bf680301942ef27256975a9a4f0a3d3bc82d1264892, 0x137dae894d2eab56f2805c4bb723de06d8e5218985ed3815e1d2999d37a3c0b3, 0x2d1f832971f0e0eba236228cfc2fc26f35a7b2de32b9a2ac704ceed1d33b94d6f);
    e := SqUpBy(PRIME, 2, e, 0x26fb5d129a5d56ade500b8976e47bc0db1ca43130bda702bc3a5333a6f478166, 0xa0fd8ae19d56c42127c402a8f9bf10294eb96f9104555346a93d652bd772cd95, 0x5ef9671301484b6a64f2ba46d58bb7055f296d0d243e4075d6d08c45b76d8f1);
    e := SqUpBy(PRIME, 2, e, 0x141fb15c33aad88424f880551f37e20529d72df2208aaa68d527aca57aee59b2a, 0x7c94cdbe1b67f25e2a842130af7da3019b8c70d132d91762836f989844b25bb7, 0x194f7a2d8dccd7f59af7c7c03be4bf5c636b463e9695d6ad506fced30358278d3);
    e := SqUpBy(PRIME, 2, e, 0xf9299b7c36cfe4bc550842615efb46033718e1a265b22ec506df31308964b76e, 0x77ec629b86b875eea798e9a61644cd510e66c3099b772d693704fb172523c45c, 0xf281f73bc15b976d54b4f0b5ca81ccaf925da925111da2401fa721e397c55118);
    e := SqUpBy(PRIME, 2, e, 0xefd8c5370d70ebdd4f31d34c2c899aa21ccd861336ee5ad26e09f62e4a4788b8, 0x8b94c740b38f2d1480252907a5d96f7f853a10b75048449318bb93e8bb32a105, 0xe0b677cb10a3c546017e98d6282b5b8ca2c4775d4cd6e50d19c762c13c1e9cc5);
    e := SqUpBy(PRIME, 2, e, 0x117298e81671e5a29004a520f4bb2deff0a74216ea0908926317727d17665420a, 0xa3590c6b9ff4ca892a08dcce821913a91aa5cc7a8d783691b684ed82042e2be6, 0x1306b9b5e33f69b6a0574e0826eeccc115d9adf52013994b91b028c3f9f410382);
    e := SqUpBy(PRIME, 2, e, 0x146b218d73fe995125411b99d04322752354b98f51af06d236d09db04085c57cc, 0xc08b8bb0c0a2400ee992708b44effe1f3138efa0fbc1a24dcf955468e8d1622, 0x1a0ea132c656eeca0f65f87e2d6197c781972e7fe847140bcb741a81a95d0cb92);
    e := SqUpBy(PRIME, 2, e, 0x1811717618144801dd324e11689dffc3e6271df41f783449b9f2aa8d1d1a2c44, 0x539354a63d3f6bfa3f11a2ee8508eeed987e09b4f3738d52d87f5e33389516d8, 0x24346766abfbe646ebd1d59a73b453d14e10cc6e8501ca50b015a96cb1da4c8);
    e := SqUpBy(PRIME, 2, e, 0xa726a94c7a7ed7f47e2345dd0a11dddb30fc1369e6e71aa5b0febc66712a2db0, 0xc70a684b6ba7ac9933097def16b2848993d081dcdffdb53b56ae73d62106ac7e, 0x6d2376b8e79f62b602b1900006162b44cfd34b32792de2a25ab1484dbb1f537e);
    e := SqUpBy(PRIME, 2, e, 0x18e14d096d74f59326612fbde2d65091327a103b9bffb6a76ad5ce7ac420d58fc, 0x694b39c2674c497639c3808be5a15c179859ed85f8a89c9a729f60628cc15cb9, 0x26b04ba48b2068ec6e3499bf5ac4b76fd02fc30ac59c40d50fbee232e743b24a9);
    e := SqUpBy(PRIME, 2, e, 0xd2967384ce9892ec73870117cb42b82f30b3db0bf1513934e53ec0c51982b972, 0xe6646c999fb0198205252b7415ee04fa4dafdfeae00982ad72e830c34992b5ca, 0xad3b2df223f0304c5967bd604c10bad78dd1f391bdf0ef414fc8fc562774bf06);
    e := SqUpBy(PRIME, 2, e, 0x1ccc8d9333f6033040a4a56e82bdc09f49b5fbfd5c013055ae5d0618693256b94, 0x488541c3c9a0f9cc372e5eb9fe39f3b11182b6e3206a9c445da8aa7652c365d, 0x33d626a27817f137de5e99020f804edc7964f328eea73ec2df213c4b3272f28cd);
    e := SqUpBy(PRIME, 2, e, 0x910a83879341f3986e5cbd73fc73e76223056dc640d53888bb5154eca586cba, 0xf6f1b83418e1c5b092dbd0caa2c0a6495a620d2446e3b72c621589d80f8ee117, 0x522ce96e71292909f77ba7edb10351b4901d53e49f68fe37691a5f998169f3);
    e := SqUpBy(PRIME, 2, e, 0x1ede3706831c38b6125b7a19545814c92b4c41a488dc76e58c42b13b01f1dc22e, 0x2f085405c906d8a8e2a9c4087eb93c7b99e109c178652a0468d11de7b0251c9, 0x3b8d5c90592a48692c5df9636d4909f66d55a06de4259a7e163930621c54c9185);
    e := SqUpBy(PRIME, 2, e, 0x5e10a80b920db151c5538810fd7278f733c21382f0ca5408d1a23bcf604a392, 0xaa4eba3eb11feac5bd3b58d7e98b68573926b7f1e752882be9e3dbcfa625d642, 0x22903c7e1193bca3ff61b184c40530cca014ea8a163f4c5444c6ed891296fe);
    e := SqUpBy(PRIME, 2, e, 0x1549d747d623fd58b7a76b1afd316d0ae724d6fe3cea51057d3c7b79f4c4bac84, 0xbdf149a611b13bf706db616a99b44890f26b9030e50960e105ad087aab98927a, 0x1c5329e46e8f88e3e7fb74e235097ad6ec52c65032cbf20ed2b12ffb5c1feee6a);
    e := SqUpBy(PRIME, 2, e, 0x17be2934c236277ee0db6c2d533689121e4d72061ca12c1c20b5a10f5573124f4, 0x710219d4cd7fbd4c1198e7060c74717b7166e063f38d315a136b2aadb0f1f001, 0x233b8a8ae0bad38ea91f69792f765eff47e99f73d6dea29c8f9797f18ae346771);
    e := SqUpBy(PRIME, 2, e, 0xe20433a99aff7a982331ce0c18e8e2f6e2cdc0c7e71a62b426d6555b61e3e002, 0x72a2dd09e4a3aa6e8207cc2f9fbecd52ad75a3d204fb65d5bdc50468df658989, 0xc78b6b49e4f05bd95e4ad34415b4b267b7eef56fd651bbea923bf46453d60985);
    e := SqUpBy(PRIME, 2, e, 0xe545ba13c94754dd040f985f3f7d9aa55aeb47a409f6cbab7b8a08d1becb1312, 0xbffa41d2d14fd37e23e28c792989b861ac3d283236a0a6d76b67b8406f29c372, 0xcd55d1e6095ab22f8a95d1248eff9d227d1781fe48b801c1c90763767732162e);
    e := SqUpBy(PRIME, 2, e, 0x17ff483a5a29fa6fc47c518f2531370c3587a50646d414daed6cf7080de5386e4, 0xc03ebbea2c1d5902d683b7062f04e854ba9f41fd019b34f011d7f464177157d4, 0x23fdd8b7713e8310c71b51b82610c5c6b0d97483d4b967afe927c972fe885dcc4);
    e := SqUpBy(PRIME, 2, e, 0x1807d77d4583ab205ad076e0c5e09d0a9753e83fa033669e023afe8c82ee2afa8, 0xd9c8724da9f097311483575229c15a97a886d187198660b430e0a1dcbc5b1960, 0x24178a4fd879dfe86f7e7250c8c6b99c5848389783bada33bf0076b81bf33fb20);
    e := SqUpBy(PRIME, 2, e, 0x1b390e49b53e12e622906aea45382b52f510da30e330cc16861c143b978b632c0, 0x4bac9863978810a9414de4e62e54cbccd41af4fff6062a65a210873c6a7dc1ef, 0x2e515baecbf086787689657b962f42619f1867ab32a6abda88dbf5c7c376e31ef);
    e := SqUpBy(PRIME, 2, e, 0x975930c72f102152829bc9cc5ca99799a835e9ffec0c54cb44210e78d4fb83de, 0x7c54559c1967f33410658f3f13f2101808dfb72c700c6906c2a009c256673de7, 0x597a569e46c963c4aefb5209c216b355c4edaa3a00b19fb8f3fa981ecd264963);
    e := SqUpBy(PRIME, 2, e, 0xf8a8ab3832cfe66820cb1e7e27e4203011bf6e58e018d20d85401384acce7bce, 0xb6e0aa478cf7bdc2e41f11d6a91000ab39f42397e83d9005ed9f52a54312a84b, 0xf1873adf0040da5e39c7fd60789302f212b401d142251aceaaa8f54cf7ab0e87);
    e := SqUpBy(PRIME, 2, e, 0x16dc1548f19ef7b85c83e23ad5220015673e8472fd07b200bdb3ea54a86255096, 0xf0ec353e5e7dafc5d4cecf9f7f739620db2ccf9ec6f2b4bd005e27627b2fdf6a, 0x20a90dd22b63917778d9dcac95c41403ef5492d2ebf1e4f4765f71edd0e75c786);
    e := SqUpBy(PRIME, 2, e, 0x1e1d86a7cbcfb5f8ba99d9f3efee72c41b6599f3d8de5697a00bc4ec4f65fbed4, 0x2d7069ab7a7836eda70746d4622e9c8b17186929f51fabfd1d16bc503e5b5ec0, 0x38aeef72027e205a07629fbd43bb051cb2de8af77de8567a04db531219ec3ff30);
    e := SqUpBy(PRIME, 2, e, 0x5ae0d356f4f06ddb4e0e8da8c45d39162e30d253ea3f57fa3a2d78a07cb6bd80, 0x99a9cf3b6a6a5bc48c0ce94aec20cdf57bccf9fcb72728a219e094b07bb3fe20, 0x2042da0bcb210157ee85819b5b3ba64ae2d511c94eaa8afe080a2aaa7d6dbe20);
    e := SqUpBy(PRIME, 2, e, 0x133539e76d4d4b7891819d295d8419beaf799f3f96e4e514433c12960f767fc40, 0x69dac7d70789c0db8a5889608dc3e5547abe62331fcf1be107a6fa8ab20aae27, 0x170f1a962968cc1626fe614af717ffc4eb218cb661e77ec9b6343778a3dfc9e27);
    e := SqUpBy(PRIME, 2, e, 0xd3b58fae0f1381b714b112c11b87caa8f57cc4663f9e37c20f4df51564155c4e, 0x9bacd00cda1e5e239db405e68071387925da9c42b327477b6a58a4ca5723c202, 0xaf14cb9e18b43036ecf0b49597ac5dfd58f24aa9a59b343e4a1d8219210f9a3e);
    e := SqUpBy(PRIME, 2, e, 0x13759a019b43cbc473b680bcd00e270f24bb53885664e8ef6d4b14994ae478404, 0xea234ed3a1d169a27ff5c8a0c98b75f77b5440366b98ede837600eeeafd0410a, 0x17aaae260a495e9efc3e469ec0c78b7716293cc856bdd32ee4737d6dec18420fa);
    e := SqUpBy(PRIME, 2, e, 0x1d4469da743a2d344ffeb91419316ebeef6a8806cd731dbd06ec01ddd5fa08214, 0xc5356a3e0663019b8252e855a3e28236d00a116039ddbcf1011bbe8247feaa45, 0x3589243e9806d2ba500bd0fb9b71e19dae89d8016c51adccc16ca1acc94e658b5);
    e := SqUpBy(PRIME, 2, e, 0x18a6ad47c0cc6033704a5d0ab47c5046da01422c073bb79e202377d048ffd548a, 0xb6a5cc1e02b57423cca6377e3859a41f893960bdd187f24e7e6f113986fd0b0, 0x25fad02a4de16c9c6d8116d37448f6b03181d2923a3057e9e372489a137c0f64c);
  }

  /** Fermat's condition for PRIME. */
  lemma ChainPRIME()
    ensures Cong(Power(2, PRIME - 1), 1, PRIME)
  {
    hide Cong, Power;
    ChainPRIME_6();
    var e := 0x1fffffffe00000002000000000000000000000001ffffffffffffffffffff;
    e := SqUpBy(PRIME, 2, e, 0x16d4b983c056ae847994c6efc70b3483f1272c17ba30fe49cfcde22730dfa160, 0xcdcf4ef9c2a046071d6eec831abaeed91c90fb4f50e55f7ddc3b130e60404c7e, 0x20940a66fbe6601ef784c641734d93ce458c18c4d89b1516215c7efd546687e);
    e := SqUpBy(PRIME, 2, e, 0x19b9e9df385408c0e3addd9063575ddb23921f69ea1cabefbb876261cc08098fc, 0xeb6e4eb172ebd28dcf5d140586a710322809ae446bd73baaaf4118738e91514b, 0x295d6b175ddc107ed442ed02e34035e8f04c89da029fe4eaa8ca3ab403725193b);
    e := SqUpBy(PRIME, 2, e, 0x1d6dc9d62e5d7a51b9eba280b0d4e206450135c88d7ae77555e8230e71d22a296, 0x19dab3c5d4fb26f06c33b484065173514723e602c25ddc539ce6d88b8b0da081, 0x3620ed00968c0210a80f778de848f91bde73fca63d0d7ee91bfc45051f7f3709d);
    e := SqUpBy(PRIME, 2, e, 0x33b5678ba9f64de0d86769080ca2e6a28e47cc0584bbb8a739cdb117161b4102, 0x2728087fec7f2bfb56a331683896e07f1441f19c4ca6ebdaf9548de86a7841a3, 0xa71c7cd4589f015263dfe767378d49d1f829444dd66c1ff4d6d69794b8a3d9f);
    e := SqUpBy(PRIME, 2, e, 0x4e5010ffd8fe57f6ad4662d0712dc0fe2883e338994dd7b5f2a91bd0d4f08346, 0x55423e2fd061eb717206c9ab2640c4135063bd8b7d71f95eb4d5328b4bbd2efb, 0x17f4e366a1387ac9a2a70bd0b7604e84e9dec9e431672f5f96c3e168f52c77d7);
    e := SqUpBy(PRIME, 2, e, 0xaa847c5fa0c3d6e2e40d93564c818826a0c77b16fae3f2bd69aa6516977a5df6, 0x459a1206ee1648525de7f32e184f53df464ee1c49774cfe562ec3aecb902ef53, 0x719439bff222e490dfe68c3e94460d782855c9ce86ae958bdb66634ed40e46ef);
    e := SqUpBy(PRIME, 2, e, 0x8b34240ddc2c90a4bbcfe65c309ea7be8c9dc3892ee99fcac5d875d97205dea6, 0x55f87efabc5f5e990e1bb4d029ab36360de58347fdfd4a165876710ffcc8f105, 0x4bb1a9c6037f67a0013f7462690f0b19bbc85117114dca9f46160535b0a89d61);
    e := SqUpBy(PRIME, 2, e, 0xabf0fdf578bebd321c3769a053566c6c1bcb068ffbfa942cb0ece21ff991e20a, 0xc45413c387ef7316dd4ac391cf4caa022eb111f4e1e5d4f6e597c5e37d814a23, 0x737bd6238afc28901f25ce9ab59b4b4696d8ecaea9035d1c6b6c429e3297a1bf);
    e := SqUpBy(PRIME, 2, e, 0x188a827870fdee62dba9587239e9954045d6223e9c3cba9edcb2f8bc6fb029446, 0xfd8011e1efb57ff33d46fb4dc6c047ef7f6b8378bb781aee32ef8f242638e837, 0x25a436783e23d4b13579d49cfa4da6fc84c0462cd947133fab21c20143b3fe513);
    e := SqUpBy(PRIME, 2, e, 0x1fb0023c3df6affe67a8df69b8d808fdefed706f176f035dc65df1e484c71d06e, 0x864789c46046162f486bfb2027b393c2095e0b30463a629c28ae689c762ce859, 0x3ec198dadc80a843a2755ba867ba872aecf505f57ba32967679579c617b5df915);
    e := SqUpBy(PRIME, 2, e, 0x10c8f1388c08c2c5e90d7f6404f67278412bc16608c74c538515cd138ec59d0b2, 0x4a0bef8a36a64e85f3c8c93305bba767f33e3d85ccfa54df284fa524a01f6472, 0x119bbe0de41260ffeacabe9448a04bbacf23b585547b45dcd9c1bfaf9aa39a8ae);
    e := SqUpBy(PRIME, 2, e, 0x9417df146d4c9d0be79192660b774ecfe67c7b0b99f4a9be509f4a49403ec8e4, 0x66635390218165f4874fdeb534ff4678b135aa08bc8443c8d8a17ca2041d5fd, 0x55ab9c29cc1c6d902e925aca3c75a7665797590caa059026824041ea342ccaed);
    e := SqUpBy(PRIME, 2, e, 0xccc6a7204302cbe90e9fbd6a69fe8cf1626b541179088791b142f944083abfa, 0xabe2ef7f2337555e6b2fcd16d50f4a33d00bd3a5b4e196e5fa81e1fcb4ea9748, 0xa3cd3483019c6d4fb1e7efe32a9ca2dc6da27baed1c42d5dcb23363f86a724);
    e := SqUpBy(PRIME, 2, e, 0x157c5defe466eaabcd65f9a2daa1e9467a017a74b69c32dcbf503c3f969d52e90, 0x7fffffff80000000800000000000000000000000800000000000000000000000, 0x1cda3d48023f6c70eea8418961534166be037f9bd13b91747773b7a275be7ef00);
    e := SqBy(PRIME, 2, e, 0xffffffff00000001000000000000000000000001000000000000000000000000, 1, 0xffffffff00000001000000000000000000000001000000000000000000000001);
  }

  lemma ChainPRIME_Q_1()
    ensures Cong(Power(2, 0x1bf921271ff), 0x14ebbd3bfce133a683b34fcb9de4ef857cb8fed175c0efbef5a67ded07c341894, PRIME)
  {
    hide Cong, Power;
    Start(2, PRIME);
    var e := 1;
    e := SqUpBy(PRIME, 2, e, 2, 4, 0);
    e := SqBy(PRIME, 2, e, 8, 0x40, 0);
    e := SqUpBy(PRIME, 2, e, 0x40, 0x1000, 0);
    e := SqUpBy(PRIME, 2, e, 0x2000, 0x4000000, 0);
    e := SqUpBy(PRIME, 2, e, 0x8000000, 0x40000000000000, 0);
    e := SqUpBy(PRIME, 2, e, 0x80000000000000, 0x4000000000000000000000000000, 0);
    e := SqUpBy(PRIME, 2, e, 0x8000000000000000000000000000, 0x40000000000000000000000000000000000000000000000000000000, 0);
    e := SqUpBy(PRIME, 2, e, 0x80000000000000000000000000000000000000000000000000000000, 0xbfffffff40000001800000008000000040000000bfffffffbfffffffbfffffff, 0x400000003fffffffffffffffbfffffffbfffffffbfffffff);
    e := SqUpBy(PRIME, 2, e, 0x17ffffffe800000030000000100000000800000017fffffff7fffffff7ffffffe, 0xbffffff3bffffffdfffffff900000000c000000c0000000640000001bffffffa, 0x23ffffffdc0000006c000000300000003c000000780000003ffffffffbffffff6);
    e := SqBy(PRIME, 2, e, 0x17fffffe77ffffffbfffffff200000001800000180000000c800000037ffffff4, 0x3ffffc66c000106040000c8180001121c0000c697ffff8f53ffff34e3ffff36a, 0x23fffffb8c0000202c00002e4000003a3c000012bfffffa14fffff3a23ffff2da);
    e := SqBy(PRIME, 2, e, 0x3ffffc66c000106040000c8180001121c0000c697ffff8f53ffff34e3ffff36a, 0x9db5c6a40739d31937ff415f77e319378d5f37c1d54dbb99f6e00800a47d132f, 0xffffe33700cf9a10f9724f1c03c5e05e1c3894133fb5395e5a07db3a3deab4b);
    e := SqUpBy(PRIME, 2, e, 0x9db5c6a40739d31937ff415f77e319378d5f37c1d54dbb99f6e00800a47d132f, 0xe831fe832ba79ce80fa0985644a50618aac7023049a7a98b65c220902f48d770, 0x612876b81019bfafd41f3fa2f69a7dd0eb59ce74f459cb55449eb2e039f2d4cf);
    e := SqBy(PRIME, 2, e, 0x1d063fd06574f39d01f4130ac894a0c31558e0460934f5316cb8441205e91aee0, 0xd8d04dc9a7cee672ed1c72d66f6ead8c6c79d49c405c9891d4d71357abb7eb, 0x34a6a9c47f3e6ddd89f83c3c644bec147da51e68125a3086738ac0fbf467673eb);
    e := SqBy(PRIME, 2, e, 0xd8d04dc9a7cee672ed1c72d66f6ead8c6c79d49c405c9891d4d71357abb7eb, 0xda851d2b0fcfe8bebd5b6f61ba1988d0b5e3d8b445cf47a684ee77ebe9a649f3, 0xb7a02cc38220efa69ce8ade4a8cc57fc551f8a28bf1d214646d8f792783a);
    e := SqUpBy(PRIME, 2, e, 0xda851d2b0fcfe8bebd5b6f61ba1988d0b5e3d8b445cf47a684ee77ebe9a649f3, 0xf7fdfde9a90f484e6a1eea304b1bc62553714d5f80b1c535e62c7f0985d415bf, 0xba86fae563864a24c53d370e746a8db288ea2e992f43f9fe690cb24733539916);
    e := SqBy(PRIME, 2, e, 0x1effbfbd3521e909cd43dd46096378c4aa6e29abf01638a6bcc58fe130ba82b7e, 0x68a62970084e6a7ec3edec680804b410c1180d1714efb7351f29e44619b47d2d, 0x3c0f06fe6c09dbc89784a1c307cc96849ee0b4578642dae65f6bd855c28f0eb29);
    e := SqBy(PRIME, 2, e, 0x68a62970084e6a7ec3edec680804b410c1180d1714efb7351f29e44619b47d2d, 0xae9f3fd923dbdfaee50028bce2d140728b9cac1c996e2cb2c09282ff46b5a07f, 0x2ac76d84f586fd6e4955c0e714f0a6417fd82621437b1ef431e726b03838a696);
    e := SqBy(PRIME, 2, e, 0xae9f3fd923dbdfaee50028bce2d140728b9cac1c996e2cb2c09282ff46b5a07f, 0x1b255669faeb1222b113030bcb41cf9892d2b8395891905f60d20b59abee5671, 0x771cdddc0382e4e12ed1dbd123e33630f6d66a4e41695d7b67977db5dfb95770);
    e := SqBy(PRIME, 2, e, 0x1b255669faeb1222b113030bcb41cf9892d2b8395891905f60d20b59abee5671, 0xaf750f5e9113f2ec92c36123f1c87ae7dc91b65cee347d6ef1bd0ace95da6ce2, 0x2e0e5ac759c63e8bd10d713bc34a2acf446f4ccb57d8d86e5baf4dcc88e4f01);
    e := SqUpBy(PRIME, 2, e, 0xaf750f5e9113f2ec92c36123f1c87ae7dc91b65cee347d6ef1bd0ace95da6ce2, 0xcd0fc93d7d9a4ebcf8e67c063e676da531739656745b596b0320e7e8ec0549e1, 0x7841408acff75ad507f1195cc825a1af98964940feddc34225ac071438cdd25d);
    e := SqBy(PRIME, 2, e, 0x19a1f927afb349d79f1ccf80c7ccedb4a62e72cace8b6b2d60641cfd1d80a93c2, 0x9da7a0baaa4e852541fdfd622b9e6468d0774137ad9c7eae16177c7950e88765, 0x2910925194b4705dbe090629464f1cdd7eeb16822073672a66308a3ee10782861);
    e := SqBy(PRIME, 2, e, 0x9da7a0baaa4e852541fdfd622b9e6468d0774137ad9c7eae16177c7950e88765, 0xa26804a6f12f204d664f2a25d893e6be73e911bc56b49d29b90e121ca509f159, 0x611708e86e6f67a788ba6e765f4867169e244f577c02e2f1305c14cdd65e4380);
    e := SqUpBy(PRIME, 2, e, 0xa26804a6f12f204d664f2a25d893e6be73e911bc56b49d29b90e121ca509f159, 0xf5304ca26307271d18269e8b0c8f66e1dee6041380e857d1bbea158ef53fffe, 0x6707d02778010fba6ab2a44edaa8a409af2457e494bd96a8297f806159894f0d);
    e := SqBy(PRIME, 2, e, 0x1ea609944c60e4e3a304d3d16191ecdc3bdcc082701d0afa377d42b1dea7fffc, 0x8da0ca7749d7f35fa38260203d856ee9707e54e9f6ba048a9bc38d080575888d, 0x3ab55ef3240dc8496ec67bb9fb9511d327736abd6c289e811b5d456fab5887d);
    e := SqBy(PRIME, 2, e, 0x8da0ca7749d7f35fa38260203d856ee9707e54e9f6ba048a9bc38d080575888d, 0x152a425ee71f012195e1b63638830ae1cc95ebe30c1dff778db6bb1c5eaf035e, 0x4e5a84056aef2c2b3662b8ec77b162bcef0938bb35b7e4c6f9071300c2f6e5b5);
    e := SqUpBy(PRIME, 2, e, 0x152a425ee71f012195e1b63638830ae1cc95ebe30c1dff778db6bb1c5eaf035e, 0x81e84cb5ac50c2c550bab3403e976352ea458cf1833a20aba37cb793d6087c25, 0x1bff5dd6c03f493d3e352696d4618a7035f045a6b1ddb40c59ba8e5337925a1);
    e := SqUpBy(PRIME, 2, e, 0x103d0996b58a1858aa17566807d2ec6a5d48b19e30674415746f96f27ac10f84a, 0x67fc5f6cda175f6ec2093cd99836db3edfebe37960dead5d8f0f047ae5d42622, 0x107afc069e768180cab070c6b2b696e59211003cc36a6e8e97ef8632b7bc4b0be);
    e := SqUpBy(PRIME, 2, e, 0xcff8bed9b42ebedd841279b3306db67dbfd7c6f2c1bd5abb1e1e08f5cba84c44, 0xa94ec384e8cacca6582cad3ea5c7a65bd86fcddf33fbaec37f56977bf246c6c5, 0xa8f436570e6cca2ac7a080f5484e47a6d6a1509b7c6cfd5fb87c05bbea4e54b5);
    e := SqBy(PRIME, 2, e, 0x1529d8709d195994cb0595a7d4b8f4cb7b0df9bbe67f75d86fead2ef7e48d8d8a, 0x750d7bc2f3298694b2adce2289dec61e337ea829b8266963428e448bd262de93, 0x1bfe459869699cf3d903afb607d92b284709eac8601a2268e69f919dcca1d902f);
    e := SqBy(PRIME, 2, e, 0x750d7bc2f3298694b2adce2289dec61e337ea829b8266963428e448bd262de93, 0x54a180f681c0bf53acc9fd9258eb0e580f3d983958ed3e27c1605061e27777ba, 0x358553d6356ae530ef8d4eb9bcc2da8431a39604ec498de05fca29678c682f51);
    e := SqBy(PRIME, 2, e, 0x54a180f681c0bf53acc9fd9258eb0e580f3d983958ed3e27c1605061e27777ba, 0x6e6740d24d28e5deb3bb58a576b5482df4e70212160c67aecb62ad905933e3a, 0x1bfa6285582783a32c583922c30934781ea951eaba78e4b69b8208c016a8cb16);
    e := SqUpBy(PRIME, 2, e, 0x6e6740d24d28e5deb3bb58a576b5482df4e70212160c67aecb62ad905933e3a, 0x8ea6bb265a8d86bd7a9ea9690192b81cb760c45f8908d2c7776e33712d3e6b4f, 0x2f9ce55a238ff52570e6ccc7fc4f5f84252f02bee8759948cc97fe6382462b);
    e := SqUpBy(PRIME, 2, e, 0x11d4d764cb51b0d7af53d52d2032570396ec188bf1211a58eeedc66e25a7cd69e, 0xb68470a70dcbb209aab108a8bb9adefabfeaff44d66173a33987259d714dc7e7, 0x13df590d86a038d1206acac86e6315175f8e61251ef9ae27d328a4addbc513e63);
    e := SqUpBy(PRIME, 2, e, 0x16d08e14e1b976413556211517735bdf57fd5fe89acc2e746730e4b3ae29b8fce, 0x65f673a7383c77aa630b2c339d54fa73188fdd1a3ddd9b40d223d69f988928c5, 0x2088252c99e5c23f1e9ad0d2d627be2f88728cb1096e9180f6644f0d86c4d5f01);
    e := SqUpBy(PRIME, 2, e, 0xcbece74e7078ef54c61658673aa9f4e6311fba347bbb3681a447ad3f3112518a, 0x78903fa927d7f3815a048848cc62ba4ca592f40499ace79bff46f0af5afb8576, 0xa2719212526f639e61795aa33a1c7dc96f9bbb7b2a0959fa021a463cf59ae712);
    e := SqUpBy(PRIME, 2, e, 0xf1207f524fafe702b409109198c574994b25e8093359cf37fe8de15eb5f70aec, 0x3067cc6aa5ee8771839d097cc3b0939083d38b1d556e776fb5fbb50a3ed515a0, 0xe31e33d9f10e164d9248abb78cc93cb7b68003a407b3d352fa0d93e272f5cc10);
    e := SqUpBy(PRIME, 2, e, 0x60cf98d54bdd0ee3073a12f98761272107a7163aaadceedf6bf76a147daa2b40, 0x4daa7fefc2c03b6d16b053a5a603f5c0b796a2ebad4bb9a25aa79c5bfb090ad4, 0x249c5af8a1b0d16eaba95896974a571fc256dbadffdda7e699103b0202ba7ad4);
    e := SqUpBy(PRIME, 2, e, 0x9b54ffdf858076da2d60a74b4c07eb816f2d45d75a977344b54f38b7f61215a8, 0x2d8d92cac6406473fd3af8fdba870b988dea6ca30778520122134df3dd2d0949, 0x5e400a11f458456b906d7fd3f3bdd7b1dd07ff6532276f1e908814ddefb80b09);
    e := SqUpBy(PRIME, 2, e, 0x5b1b25958c80c8e7fa75f1fb750e17311bd4d9460ef0a40244269be7ba5a1292, 0x80d942127c42f1836190cb46437e3863e36207796d57bdf2b06758a67afe69e2, 0x206c4f9965601392a70c7bd9f6c43c74b672c84c8fa6c9a4b45e067d42fd8e9e);
    e := SqUpBy(PRIME, 2, e, 0x101b28424f885e306c321968c86fc70c7c6c40ef2daaf7be560ceb14cf5fcd3c4, 0xa75de9dfe7099d341d9a7e5cef277c2be5c7f68bae077df7ad33ef683e1a0c4a, 0x10367e9cf46047b7274d7dda2fe66093ac69bc9f5c319444d467344017d0d5e3a);
  }

  lemma ChainPRIME_Q_2()
    ensures Cong(Power(2, 0x1bf921271fffffffe406d), 0x1db9d0db98595cd286bf378e7007acf286785e894e0b322fa63c83a378d481be, PRIME)
  {
    hide Cong, Power;
    ChainPRIME_Q_1();
    var e := 0x1bf921271ff;
    e := SqUpBy(PRIME, 2, e, 0x14ebbd3bfce133a683b34fcb9de4ef857cb8fed175c0efbef5a67ded07c341894, 0x4cb438ee4bb760840cb76bc41cf1b0ec34ff4ca33a4e74b9b071f5eeb675df71, 0x1b5aea6593cc5a03faeb7a957d353d828c3e38ce9739f83f96dced30557f9c9e1);
    e := SqUpBy(PRIME, 2, e, 0x996871dc976ec108196ed78839e361d869fe9946749ce97360e3ebdd6cebbee2, 0xea196557a400f40e42f802ca17741d7f4c814aee23eabafeb3a3d7dbfb8d65b4, 0x5bee02b6becfeb334e35d42e1693460bd9e2d0317d859936a10597814a4d2630);
    e := SqUpBy(PRIME, 2, e, 0x1d432caaf4801e81c85f005942ee83afe990295dc47d575fd6747afb7f71acb68, 0xfab19d77bf79d43a3a691ff1e356adc92faba4d95dfaf9533ac94d4d0fad09c, 0x35849bf280481ee322a3b8223b4163dee15967989886ceb70d710ded42e3cb65c);
    e := SqUpBy(PRIME, 2, e, 0x1f5633aef7ef3a87474d23fe3c6ad5b925f5749b2bbf5f2a675929a9a1f5a138, 0xcd69b384e97b3efd9a0a521ff0c8d5dcd3e0245c71f389360002b77e4c23c71a, 0x3d5fd8b27dfb0d284d742a0292dd44dcf21d4451f150808eca90b17e16c4ada);
    e := SqUpBy(PRIME, 2, e, 0x19ad36709d2f67dfb3414a43fe191abb9a7c048b8e3e7126c00056efc98478e34, 0xae67ab37e38e17d14eaa529288c38526625f3923315832827d2ab6de9b82e9ce, 0x29349d4a10eb20a9da6e081b8bbdb17cbb717dba64524e7bd497903a0abad2f3e);
    e := SqUpBy(PRIME, 2, e, 0x15ccf566fc71c2fa29d54a52511870a4cc4be724662b06504fa556dbd3705d39c, 0x3e2a60f0bf812b83bf69171c117ec0a1c272c6de55e9b476d2f3e320d776789f, 0x1db445aeea68c4699254fe16cebc2557769563eeb001967b65cbb15b9dc73f18f);
    e := SqUpBy(PRIME, 2, e, 0x7c54c1e17f0257077ed22e3822fd814384e58dbcabd368eda5e7c641aeecf13e, 0x26c77d4fd19faa14fd9a1f23442a25f66e02beb5600be3052ab72992e419fc42, 0x3c6237e27e3d9ddca9fbd773a329462c6a1460de698e0c330fcdccd8ee74313e);
    e := SqUpBy(PRIME, 2, e, 0x4d8efa9fa33f5429fb343e4688544becdc057d6ac017c60a556e5325c833f884, 0x2bb93a6b39ed2fc4e9fd41fac1b8dff6adda31f1a2a8c585ec34e9c1131e7161, 0x177f529f1e28b3e5877fbc520059d8405b66986f4c09161f84083cbddd466d51);
    e := SqUpBy(PRIME, 2, e, 0x577274d673da5f89d3fa83f58371bfed5bb463e345518b0bd869d382263ce2c2, 0xdaf2b9bd0c63988f20e50203d57be0a524f3909b0c4e38efefc50b896599547, 0x1ddefe9624efa6a698004784f653cef74bfe3b1c667cd116628015e3ea8e7a43);
    e := SqUpBy(PRIME, 2, e, 0x1b5e5737a18c7311e41ca0407aaf7c14a49e72136189c71dfdf8a1712cb32a8e, 0xbc3eb5b9e20f484c463af08e0f391f7848b08eff22258ab7b95d30996d9fa9ef, 0x2ed0929e992287874683ea7dd8077651099035d69f8d90ac0bcef3813f8c32b);
    e := SqUpBy(PRIME, 2, e, 0x1787d6b73c41e90988c75e11c1e723ef091611dfe444b156f72ba6132db3f53de, 0x68999f5977b2d9eaf002cd42e528efb3561dfcd7e5234d18f159c16db9134e86, 0x229b0a91855f1f1fad468f8cb75f3813b26499a539e4f939cfcb1598d82559a02);
    e := SqUpBy(PRIME, 2, e, 0xd1333eb2ef65b3d5e0059a85ca51df66ac3bf9afca469a31e2b382db72269d0c, 0xf1766e333ed1e471b4e544b5be35406f9f53b425752ce8255b9627ca19a52e34, 0xaaf4b6a2e07f51d220f3bfd842226e5fec2c3028c390ee38d456db9069bd75a4);
    e := SqUpBy(PRIME, 2, e, 0x1e2ecdc667da3c8e369ca896b7c6a80df3ea7684aea59d04ab72c4f94334a5c68, 0x1e8e26d3a345f6e962d9302e7bcb8ffd5e174ca836da8795e304f7206bd8594b, 0x38f00c91c9ad58085a6f2c05318ee92611de3fe7904615c5631fb38756e5d6f0b);
    e := SqUpBy(PRIME, 2, e, 0x3d1c4da7468bedd2c5b2605cf7971ffabc2e99506db50f2bc609ee40d7b0b296, 0xd3a75174209390959842050def218470cac8359a617d90e3e729d90369532169, 0xe968022da5aabd28f285317b7c3a7ca49a505710726de5a367b60156a7e3185);
    e := SqUpBy(PRIME, 2, e, 0x1a74ea2e84127212b30840a1bde4308e195906b34c2fb21c7ce53b206d2a642d2, 0x5407f0c5b5f2cfffdf118ad4cbfa2b46eea8ead3da0fe0147727111b90f310ce, 0x2bbf4f685f076bf23d2a35efe3ddf2f059d37eff64750312168eeb5a84f2a1c8a);
    e := SqUpBy(PRIME, 2, e, 0xa80fe18b6be59fffbe2315a997f4568ddd51d5a7b41fc028ee4e223721e6219c, 0x8e6da60505ca07c6c5e790e83e5026faea31abdba51df69b2d52bbba3c0cc200, 0x6e54d903a0ff3f839845c8b4ab3fd9406006ccb8f5ce363febf5b7279b532af0);
    e := SqUpBy(PRIME, 2, e, 0x11cdb4c0a0b940f8d8bcf21d07ca04df5d46357b74a3bed365aa5777478198400, 0x7b676cc0d6f52fb8e3ab934022e404af4022d693c197bbe7be65e5482ee7e362, 0x13cf74c92b66d95aaf52a618cbcd77a761c95176fe819cd8ece3656fd22d7e362);
    e := SqUpBy(PRIME, 2, e, 0xf6ced981adea5f71c757268045c8095e8045ad27832f77cf7ccbca905dcfc6c4, 0xcabaab0961fc2bb4fc41b386d3b9ccc97155b41fa113a8b51c504b3ffbeb7420, 0xedf23128edb1a05058216d96f318aaaac69af79a702fca346faabfb2889fae10);
    e := SqUpBy(PRIME, 2, e, 0x195755612c3f85769f883670da7739992e2ab683f4227516a38a0967ff7d6e840, 0x26cc3fed856a3533e26ef7c95f096896a0a030e355f6b9fba25278d411953263, 0x2822c7821ac53fabf5d0032bf3e75965fcefe6d26e0a7dc55a2fca0bf73e12263);
    e := SqUpBy(PRIME, 2, e, 0x4d987fdb0ad46a67c4ddef92be12d12d414061c6abed73f744a4f1a8232a64c6, 0x51d406120224ca9bda1ccf2398ff9e8efbadeabb4e9a5bbf4b8d2ded8c7fdf40, 0x178517c1f000cc2ce999498549168291ec7d66bc6b6c6d2cffa77f7a2fdc961c);
    e := SqUpBy(PRIME, 2, e, 0xa3a80c2404499537b4399e4731ff3d1df75bd5769d34b77e971a5bdb18ffbe80, 0x15272735e00a0d1df4bd5a4fc5fdc9c1a8846c1a6cde104e4fe721809ea24529, 0x689f6dc635ee27d6b0ae379f2748610b547e373789cf445704773f4b8de00529);
    e := SqUpBy(PRIME, 2, e, 0x2a4e4e6bc0141a3be97ab49f8bfb93835108d834d9bc209c9fce43013d448a52, 0x10e6f3d76d3a2d82efd817f96762bee30603ca2c4d773cfbebe9578c7281f974, 0x6fdc9af43b344f142bc9e96571a2d944c42aaa2e146c4d80a579aa398357730);
    e := SqUpBy(PRIME, 2, e, 0x21cde7aeda745b05dfb02ff2cec57dc60c0794589aee79f7d7d2af18e503f2e8, 0xb0236aeab357cd2637f50f33b8129db4d35f5ce2fbdfd8a90dba9bca8d64efde, 0x476bb57f87f9ed4ebf7459b00570f36cebc0d62fdfa64f5b563cfa7e5797d9e);
    e := SqBy(PRIME, 2, e, 0x16046d5d566af9a4c6fea1e6770253b69a6beb9c5f7bfb1521b7537951ac9dfbc, 0x288250328631884da9ac0b431a05b5d00fa18cb7e8759ec156c4557a2926dea6, 0x1e4c2dfa66276bec3536f439912ce951ba9d20907a735d83e3cfd7bfee065cc96);
    e := SqBy(PRIME, 2, e, 0x288250328631884da9ac0b431a05b5d00fa18cb7e8759ec156c4557a2926dea6, 0x6b8d01bc587fbdc4fb818851e9bbc20f8b289dcb5fe3a4c4b662395f0f6fb7cf, 0x668fb655cc85e23b12725a74ed30017e293e28ee1778bbd30ae4def0883642b);
    e := SqUpBy(PRIME, 2, e, 0x6b8d01bc587fbdc4fb818851e9bbc20f8b289dcb5fe3a4c4b662395f0f6fb7cf, 0x11a151146892cc5a217a735213e259af1ad3e776d2cd462d1afb53b1f4990da9, 0x2d2f2d1e88a675bb2a64f2bef1b4d16038bc344f4d8a7625d6cc71c4c91d7448);
    e := SqBy(PRIME, 2, e, 0x2342a228d12598b442f4e6a427c4b35e35a7ceeda59a8c5a35f6a763e9321b52, 0xe7258e0e9a60ed59e160a79cb535d3016bcb9e658293c155ae930e03302650d3, 0x4db49af31cf1808d01791a022c26384b292cb5baac86ed3a828b10d3d33ea8f);
    e := SqBy(PRIME, 2, e, 0xe7258e0e9a60ed59e160a79cb535d3016bcb9e658293c155ae930e03302650d3, 0x20436c1c87629535fb148ee68b5e3cad31b999ebd38689c6897ce175b901704d, 0xd0b4cbe18a5c8c565161c300ec7dc633638bb37d8802fc7a885f847880d8e264);
    e := SqBy(PRIME, 2, e, 0x20436c1c87629535fb148ee68b5e3cad31b999ebd38689c6897ce175b901704d, 0x2ddef333daa9daaec018c0f28831e06a666b91a68b26218bee0897899cda2c90, 0x410ecc8ea808519928577cadfb70952c6b45ab6237f1781910582d640fcb567);
    e := SqBy(PRIME, 2, e, 0x2ddef333daa9daaec018c0f28831e06a666b91a68b26218bee0897899cda2c90, 0x89027dd50baf00a86dc9db404d779289540ca8e0751c60acd6258efb76040bac, 0x83823aaf81294c2f612eb4f836144e3cc5877b493ffc2cbaaf55c9c09023aac);
    e := SqBy(PRIME, 2, e, 0x89027dd50baf00a86dc9db404d779289540ca8e0751c60acd6258efb76040bac, 0x4bc2ba664ac8a1fda28412f1a0536e1b7622163e866054df378cd095796d7ae0, 0x4953aab48502e6d9dc371525c8d8e54a71681a0814b4d723288b627a8b853f50);
    e := SqBy(PRIME, 2, e, 0x4bc2ba664ac8a1fda28412f1a0536e1b7622163e866054df378cd095796d7ae0, 0x52bfb5e8cc2dd3aeeec3c68c5b3e93b0a1d299fbc9e9f87f05d77093b556d9b0, 0x166bad5710ff61e25555a8fb2007a89acc4c313eb4edcf1be621bada179c95b0);
    e := SqBy(PRIME, 2, e, 0x52bfb5e8cc2dd3aeeec3c68c5b3e93b0a1d299fbc9e9f87f05d77093b556d9b0, 0xcf111c7a06b001081dd480fa9a93a2f616dcff12a7d68b7816a50850d973e5d, 0x1abf601a30306c8388acdc02090ccf4b90c17aa5477adbcf3b1e631b323b655d);
    e := SqUpBy(PRIME, 2, e, 0xcf111c7a06b001081dd480fa9a93a2f616dcff12a7d68b7816a50850d973e5d, 0x82acb6e94ec2f0af79710b90448386c4217ca386d121a4c4d5078eb01fab50f4, 0xa77cad32c9ad1dde45a98aca9a9181783484dd3633d00fcf29ec5e0cc4232b);
    e := SqUpBy(PRIME, 2, e, 0x105596dd29d85e15ef2e2172089070d8842f9470da2434989aa0f1d603f56a1e8, 0x46de8bc59cb74712a7c1db87ec5608b5500235cd5077b64dcc130a10e4184efa, 0x10acf792e0b91053a22858775ee958a3e7f788ba97532ae45818f4b0f85d2acba);
    e := SqBy(PRIME, 2, e, 0x8dbd178b396e8e254f83b70fd8ac116aa0046b9aa0ef6c9b98261421c8309df4, 0x3f6d7cf11bdddd6e265ae42aa70ba69a0c6f6c431a9e66581214e4b3281854b1, 0x4e79d79b717abd77682ae1d8d117a8235e93df38a38acb229be20bc24b232421);
    e := SqUpBy(PRIME, 2, e, 0x3f6d7cf11bdddd6e265ae42aa70ba69a0c6f6c431a9e66581214e4b3281854b1, 0x93d61b4fa3e848efdd0e4359a270823d9b749e573e631a017fc33441dcb44fea, 0xfb712525dba76517df6f53bfabe27a4d6173f0111be87cef0f1dff48f7fad89);
    e := SqUpBy(PRIME, 2, e, 0x127ac369f47d091dfba1c86b344e1047b36e93cae7cc63402ff866883b9689fd4, 0xf5b656d095544b9342f50241ed3c914c60fdcdb52d5f076c0b33fc2a7ad57c07, 0x1557e59bddeb11f9873878be56ea5fc29dfc145262aee95c0180bc76fd2cc7477);
    e := SqBy(PRIME, 2, e, 0x1eb6cada12aa8972685ea0483da792298c1fb9b6a5abe0ed81667f854f5aaf80e, 0xe5300fbc69c7f442e3cdd6cebc819291a88a5542a4a4a1b38076883cddb98825, 0x3af5a102edebbfb57090685ffdbca731bca7b19b3f4bcb7b018a3ee13aec66761);
    e := SqUpBy(PRIME, 2, e, 0xe5300fbc69c7f442e3cdd6cebc819291a88a5542a4a4a1b38076883cddb98825, 0xedce86dcc2cae69435f9bc73803d679433c2f44a7059917d31e41d1bc6a40df, 0xcd2f052dca0e0a393986f00717abb84da826b670a294021d815944f3cc88eb86);
  }

  /** The witness of Q for PRIME. */
  lemma ChainPRIME_Q()
    ensures Cong(Power(2, 0x1bf921271fffffffe406ded8e), 0x6e2de1e253b630ab90fb6c14c9913e3f79353ced1be9c68ed42e7ee18b96074e, PRIME)
  {
    hide Cong, Power;
    ChainPRIME_Q_2();
    var e := 0x1bf921271fffffffe406d;
    e := SqUpBy(PRIME, 2, e, 0x1db9d0db98595cd286bf378e7007acf286785e894e0b322fa63c83a378d481be, 0x769e420a2536b0029228351c5ef8f3e9210cfd858fb53e48a7ee458cec4f3bce, 0x373a0314bbfa4505d7f3fa8947c8847d4cc2f6147a67098da70af8fa7de32ca);
    e := SqUpBy(PRIME, 2, e, 0xed3c84144a6d600524506a38bdf1e7d24219fb0b1f6a7c914fdc8b19d89e779c, 0xf82afe59dcbd226a17e39679a78410eb1b1bd94f455657772a6569d1afb80681, 0xdbd91adc9b4f7046c8dbf8478355da99da610c2b351086b73222d96a93459f71);
    e := SqUpBy(PRIME, 2, e, 0x1f055fcb3b97a44d42fc72cf34f0821d63637b29e8aacaeee54cad3a35f700d02, 0x89658c8fd4ae5f25117d4ce77aa9eaa4e3de3d4015e1ac4d0ea19540971cae84, 0x3c24d501df9d29957c470c257c144d96c89f87f98c9bfe7a1d5c35e01b8b37a80);
    e := SqBy(PRIME, 2, e, 0x112cb191fa95cbe4a22fa99cef553d549c7bc7a802bc3589a1d432a812e395d08, 0xb9f52f977d9828c1bbeb9a73642a5352f2b34e4fbd4868a6e82846c1d027aeb6, 0x126f762e9c82fb653af5863b97a2f058bcdff97adbaf92591f5493a6860c8de76);
    e := SqUpBy(PRIME, 2, e, 0xb9f52f977d9828c1bbeb9a73642a5352f2b34e4fbd4868a6e82846c1d027aeb6, 0x7f075991235387d7dbccfcb1e1b844e9f1202cb478df029c140209aa7afa61e4, 0x8714499d9b6993865ed6a9e2fbc6e8a84d4ff785cbad04f262809130084a7880);
    e := SqUpBy(PRIME, 2, e, 0xfe0eb32246a70fafb799f963c37089d3e2405968f1be053828041354f5f4c3c8, 0xb6e5ca222b5cbbe6e9cfefc07b46df3b74a8a7b5c2241fbd818d225bb223b394, 0xfc212c51156d5d1af8a97f8aca40657526d2efb6418ec2b4394e8e5917296754);
    e := SqBy(PRIME, 2, e, 0x16dcb944456b977cdd39fdf80f68dbe76e9514f6b84483f7b031a44b764476728, 0x38b7c3100eaf5a66e424a2438f0f65ffa94325c66ad966f025a9cf1059898f93, 0x20aae26b1643ba6f8e9dfc80fac53780fb4b49d3a4eea9aedcd5f375eb7c85953);
    e := SqUpBy(PRIME, 2, e, 0x38b7c3100eaf5a66e424a2438f0f65ffa94325c66ad966f025a9cf1059898f93, 0xad4173d8c8cb81a6ff924d029af86a182b7561942118a63218b8576dfbdc09d4, 0xc90e93f889416e0b969136b0955e32aeb6bc500b898e19a43efbb4eca007b6b);
    e := SqUpBy(PRIME, 2, e, 0x15a82e7b19197034dff249a0535f0d43056eac32842314c643170aedbf7b813a8, 0xd7a08fae50c50800acad23ab595e151c9b006545c42c4e63169c76d86b416ed1, 0x1d5061d3df49c1f737e11d2da2c373b83ff5017441da438cb943dbb1df83f1091);
    e := SqBy(PRIME, 2, e, 0x1af411f5ca18a1001595a4756b2bc2a393600ca8b88589cc62d38edb0d682dda2, 0x43707b63f214b59cc846323c371f07333656bb2b56026d3e2d73260ca8344db7, 0x2d67c582daf4cd2cf75689de2f8fa78a4b306cfc9809d64244c8565dbf7cb3333);
    e := SqBy(PRIME, 2, e, 0x43707b63f214b59cc846323c371f07333656bb2b56026d3e2d73260ca8344db7, 0xc8b62c05f013b16de9a586bf8ee12e5ef0af00e23e7b7d98694cbcc44082dd, 0x11c412029567ecd6851c1f4b0fca7813bfbd7a010bb5bbf9b580fee4ea50ea0c);
    e := SqBy(PRIME, 2, e, 0xc8b62c05f013b16de9a586bf8ee12e5ef0af00e23e7b7d98694cbcc44082dd, 0xad2671ab5b4d61991792e44c536a93e6c8d524115725e36a6a3e9160b21f2856, 0x9d5d266c847f5251f364aa9a44adad0471f2e873818f7e0e4c2498b9f58d);
    e := SqUpBy(PRIME, 2, e, 0xad2671ab5b4d61991792e44c536a93e6c8d524115725e36a6a3e9160b21f2856, 0x2a8bedbda0503b4e4772625bd4761817b201f822e2f478e986ae4049bac82c8a, 0x751cfb67ffdb6596d8279675a58b5c1a4245324b31dbcae566073be757992fa6);
    e := SqUpBy(PRIME, 2, e, 0x5517db7b40a0769c8ee4c4b7a8ec302f6403f045c5e8f1d30d5c809375905914, 0x5c6ba821c59f61509f79c96081602a6f2fe140409cc9b46c74c3ee99a6d87075, 0x1c48d9f92185217c01b4560fa9dd5e4f4c73e6ba285e4227d38c5ed1095986e5);
    e := SqUpBy(PRIME, 2, e, 0xb8d750438b3ec2a13ef392c102c054de5fc28081399368d8e987dd334db0e0ea, 0x853270f6f371950f3564aec5dc74fbbef44b5565486066180469d8e4aa99c82, 0x85763879883e9c85205a229eafe9da398333c46093e6d31ee5191acf7f4f469e);
    e := SqBy(PRIME, 2, e, 0x10a64e1ede6e32a1e6ac95d8bb8e9f77de896aaca90c0cc3008d3b1c95533904, 0x6e2de1e253b630ab90fb6c14c9913e3f79353ced1be9c68ed42e7ee18b96074e, 0x11535cd44c2464f346ba0d2f12ad13471a3a4410645dcc4a8303294de4b3f3e);
  }

  /** The integers modulo the prime of secp256r1 are a field. */
  lemma PrimeSecp256r1()
    ensures Prime(PRIME)
  {
    hide Cong, Power, Prime, Witness;
    PrimeQ();
    ChainPRIME(); ChainPRIME_Q();
    MakeWitness(PRIME, Q, 2, 0x1bf921271fffffffe406ded8e, 0x6e2de1e253b630ab90fb6c14c9913e3f79353ced1be9c68ed42e7ee18b96074e, 0x4f5b418eca523fb75369a24772ba6e620c00261d7f768df08143595c559af3ce);
    Pocklington(PRIME, Q, 0x6e2de1e253b630ab90fb6c14c9913e3f79353ced1be9c68ed42e7ee18b96074e);
  }
}
