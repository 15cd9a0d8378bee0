/** The option parser that moves non-options behind the options it has reported. */
module Getopt {

  /** A C string holds no NUL. */
  type CString = s: string | '\0' !in s

  datatype OptArg = NoArg | Given(text: string)

  /** An option, -1, '?', or a read behind the end of an argument. */
  datatype Outcome = Opt(c: char) | Done | Bad(c: char) | Stray

  /** The character at i, NUL at the end. */
  function CharAt(s: string, i: nat): char {
    if i < |s| then s[i] else '\0'
  }

  function IsDashDash(arg: string): bool {
    CharAt(arg, 0) == '-' && CharAt(arg, 1) == '-' && CharAt(arg, 2) == '\0'
  }

  function IsShort(arg: string): bool {
    CharAt(arg, 0) == '-' && CharAt(arg, 1) != '-' && CharAt(arg, 1) != '\0'
  }

  datatype ArgType = Unknown | None | Required | Optional

  /** ogs_getopt_argtype */
  function ArgTypeFrom(optstring: string, i: nat, c: char): ArgType
    requires i <= |optstring|
    decreases |optstring| - i
  {
    if i == |optstring| then Unknown
    else if optstring[i] == c then
      if CharAt(optstring, i + 1) == ':' then (if CharAt(optstring, i + 2) == ':' then Optional else Required) else None
    else ArgTypeFrom(optstring, i + 1, c)
  }

  function ArgTypeOf(optstring: string, c: char): ArgType {
    if c == ':' then Unknown else ArgTypeFrom(optstring, 0, c)
  }

  method FindArgType(optstring: string, c: char) returns (t: ArgType)
    ensures t == ArgTypeOf(optstring, c)
  {
    if c == ':' {
      return Unknown;
    }
    var i: nat := 0;
    while i < |optstring| && c != optstring[i]
      invariant i <= |optstring| && ArgTypeFrom(optstring, i, c) == ArgTypeFrom(optstring, 0, c)
    {
      i := i + 1;
    }
    if i == |optstring| {
      return Unknown;
    }
    if CharAt(optstring, i + 1) == ':' {
      return if CharAt(optstring, i + 2) == ':' then Optional else Required;
    }
    return None;
  }

  // ---------------------------------------------------------------- a left-to-right scan

  /** What the option at position sub + 1 of the first argument means: the number of arguments it
      uses up, and where the next one starts. */
  datatype Reading = Reading(outcome: Outcome, arg: OptArg, used: nat, sub: nat)

  function Read(rest: seq<string>, sub: nat, optstring: string): Reading
    requires rest != [] && sub + 1 <= |rest[0]|
  {
    var option := rest[0][sub + 1..];
    var c := CharAt(option, 0);
    match ArgTypeOf(optstring, c)
    case Unknown => Reading(Bad(c), NoArg, 1, sub)
    case None => if |option| > 1 then Reading(Opt(c), NoArg, 0, sub + 1) else Reading(Opt(c), NoArg, 1, 0)
    case Required =>
      if |option| > 1 then Reading(Opt(c), Given(option[1..]), 1, 0)
      else if |rest| > 1 then Reading(Opt(c), Given(rest[1]), 2, 0)
      else Reading(Bad(c), NoArg, 1, 0)
    case Optional => Reading(Opt(c), if |option| > 1 then Given(option[1..]) else NoArg, 1, 0)
  }

  /** One call: the arguments used up, the non-options passed on the way, and what is left. */
  datatype Call = Call(outcome: Outcome, arg: OptArg, used: seq<string>, passed: seq<string>, rest: seq<string>, sub: nat)

  /** The position is within the argument that is read next, if there is one. */
  ghost predicate Ready(rest: seq<string>, sub: nat)
    decreases |rest|
  {
    sub == 0 || rest == [] || IsDashDash(rest[0])
    || (if IsShort(rest[0]) then sub + 1 <= |rest[0]| else Ready(rest[1..], sub))
  }

  function NextCall(rest: seq<string>, sub: nat, optstring: string): Call
    decreases |rest|
  {
    if rest == [] then Call(Done, NoArg, [], [], [], sub)
    else if IsDashDash(rest[0]) then Call(Done, NoArg, [rest[0]], [], rest[1..], sub)
    else if !IsShort(rest[0]) then
      var r := NextCall(rest[1..], sub, optstring);
      r.(passed := [rest[0]] + r.passed)
    else if sub + 1 <= |rest[0]| then
      var r := Read(rest, sub, optstring);
      Call(r.outcome, r.arg, rest[..r.used], [], rest[r.used..], r.sub)
    else Call(Stray, NoArg, [], [], rest, sub)
  }

  datatype Event = Event(c: char, arg: OptArg)

  /** Reading all arguments from left to right without moving any: what is reported, which
      arguments are options or belong to one, which are not, and what follows "--". */
  datatype Scan = Scan(events: seq<Event>, options: seq<string>, others: seq<string>, after: seq<string>, clean: bool)

  function ScanAll(rest: seq<string>, sub: nat, optstring: string): Scan
    decreases |rest|, if rest == [] then 0 else |rest[0]| - sub
  {
    if rest == [] then Scan([], [], [], [], true)
    else if IsDashDash(rest[0]) then Scan([], [rest[0]], [], rest[1..], true)
    else if !IsShort(rest[0]) then
      var r := ScanAll(rest[1..], sub, optstring);
      r.(others := [rest[0]] + r.others)
    else if sub + 1 <= |rest[0]| then
      var o := Read(rest, sub, optstring);
      if o.outcome.Bad? then Scan([], [], [], rest, false)
      else
        var r := ScanAll(rest[o.used..], o.sub, optstring);
        r.(events := [Event(o.outcome.c, o.arg)] + r.events, options := rest[..o.used] + r.options)
    else Scan([], [], [], rest, false)
  }

  /** One call is one step of the scan, and leaves the parser ready for the next. */
  lemma {:induction false} CallStep(rest: seq<string>, sub: nat, optstring: string)
    requires Ready(rest, sub)
    ensures var r, s := NextCall(rest, sub, optstring), ScanAll(rest, sub, optstring);
            !r.outcome.Stray? &&
            if r.outcome.Bad? then s == Scan([], [], r.passed, r.used + r.rest, false)
            else if r.outcome.Done? then s == Scan([], r.used, r.passed, r.rest, true)
            else
              var t := ScanAll(r.passed + r.rest, r.sub, optstring);
              s == t.(events := [Event(r.outcome.c, r.arg)] + t.events, options := r.used + t.options)
              && Ready(r.passed + r.rest, r.sub)
    decreases |rest|
  {
    hide Read, IsShort, IsDashDash;
    if rest != [] && !IsDashDash(rest[0]) {
      var r := NextCall(rest, sub, optstring);
      if IsShort(rest[0]) {
        ShortLength(rest[0]);
        ReadReady(rest, sub, optstring);
        assert r.passed + r.rest == r.rest;
      } else {
        CallStep(rest[1..], sub, optstring);
        PassStep(rest, sub, optstring);
      }
    }
  }

  lemma ShortLength(arg: string)
    requires IsShort(arg)
    ensures |arg| >= 2 && !IsDashDash(arg)
  {}

  /** Reading an option stays within the arguments, and within a group if there is more of it. */
  lemma ReadReady(rest: seq<string>, sub: nat, optstring: string)
    requires rest != [] && sub + 1 <= |rest[0]| && IsShort(rest[0])
    ensures var o := Read(rest, sub, optstring);
            o.used <= |rest| && o.used <= 2 && !o.outcome.Done? && !o.outcome.Stray?
            && (o.outcome.Opt? ==> Ready(rest[o.used..], o.sub))
  {
    hide ArgTypeOf, IsShort;
    ShortLength(rest[0]);
    assert rest[0..] == rest;
  }

  /** A non-option in front is passed over. */
  lemma PassStep(rest: seq<string>, sub: nat, optstring: string)
    requires rest != [] && !IsDashDash(rest[0]) && !IsShort(rest[0])
    ensures var r, q := NextCall(rest, sub, optstring), NextCall(rest[1..], sub, optstring);
            var y := q.passed + q.rest;
            r == q.(passed := [rest[0]] + q.passed) && r.passed + r.rest == [rest[0]] + y
            && (Ready(r.passed + r.rest, q.sub) <==> Ready(y, q.sub))
            && ScanAll(r.passed + r.rest, q.sub, optstring) == var t := ScanAll(y, q.sub, optstring); t.(others := [rest[0]] + t.others)
  {
    hide Read, IsShort, IsDashDash;
    var r, q := NextCall(rest, sub, optstring), NextCall(rest[1..], sub, optstring);
    var x, y := rest[0], q.passed + q.rest;
    assert r.passed + r.rest == [x] + y;
    assert ([x] + y)[0] == x && ([x] + y)[1..] == y;
  }

  /** A call neither loses nor invents arguments. */
  lemma {:induction false} CallParts(rest: seq<string>, sub: nat, optstring: string)
    ensures var r := NextCall(rest, sub, optstring); multiset(r.used + r.passed + r.rest) == multiset(rest)
    ensures |NextCall(rest, sub, optstring).used| <= 2
    decreases |rest|
  {
    hide Read, IsShort, IsDashDash, Ready;
    if rest == [] {
    } else if IsDashDash(rest[0]) {
      assert rest == [rest[0]] + rest[1..];
    } else if !IsShort(rest[0]) {
      CallParts(rest[1..], sub, optstring);
      var q := NextCall(rest[1..], sub, optstring);
      MovePassed(q.used, rest[0], q.passed, q.rest, rest);
    } else if sub + 1 <= |rest[0]| {
      ReadReady(rest, sub, optstring);
      var o := Read(rest, sub, optstring);
      assert rest == rest[..o.used] + rest[o.used..];
    }
  }

  lemma MovePassed(used: seq<string>, x: string, passed: seq<string>, tail: seq<string>, rest: seq<string>)
    requires rest != [] && rest[0] == x && multiset(used + passed + tail) == multiset(rest[1..])
    ensures multiset(used + ([x] + passed) + tail) == multiset(rest)
  {
    assert rest == [x] + rest[1..];
    assert multiset(used + ([x] + passed) + tail) == multiset(used) + multiset{x} + multiset(passed) + multiset(tail);
    assert multiset(used + passed + tail) == multiset(used) + multiset(passed) + multiset(tail);
  }

  // ---------------------------------------------------------------- what an option string means

  /** The first c of the option string, with this many colons behind it; two are as many as count. */
  predicate Declares(optstring: string, p: nat, c: char, colons: nat) {
    p < |optstring| && optstring[p] == c && c != ':' && (forall k :: 0 <= k < p ==> optstring[k] != c)
    && (colons > 0 <==> p + 1 < |optstring| && optstring[p + 1] == ':')
    && (colons > 1 <==> p + 2 < |optstring| && optstring[p + 1] == ':' && optstring[p + 2] == ':')
  }

  /** The character at position sub + 1 of the first argument is read as an option. */
  predicate InGroup(rest: seq<string>, sub: nat, c: char) {
    rest != [] && |rest[0]| >= 2 && rest[0][0] == '-' && rest[0][1] != '-' && rest[0][1] != '\0'
    && sub + 1 < |rest[0]| && rest[0][sub + 1] == c
  }

  /** A scan that starts with an event, for which these arguments are used up. */
  function Then(e: Event, used: seq<string>, t: Scan): Scan {
    t.(events := [e] + t.events, options := used + t.options)
  }

  /** Without a colon the option takes nothing, and the group goes on behind it. */
  lemma OptionAlone(rest: seq<string>, sub: nat, c: char, optstring: string, p: nat)
    requires Declares(optstring, p, c, 0) && InGroup(rest, sub, c)
    ensures sub + 2 < |rest[0]| ==>
              NextCall(rest, sub, optstring) == Call(Opt(c), NoArg, [], [], rest, sub + 1)
              && ScanAll(rest, sub, optstring) == Then(Event(c, NoArg), [], ScanAll(rest, sub + 1, optstring))
    ensures sub + 2 == |rest[0]| ==>
              NextCall(rest, sub, optstring) == Call(Opt(c), NoArg, [rest[0]], [], rest[1..], 0)
              && ScanAll(rest, sub, optstring) == Then(Event(c, NoArg), [rest[0]], ScanAll(rest[1..], 0, optstring))
  {
    hide ArgTypeOf, ScanAll;
    Declared(optstring, p, c, 0);
    GroupShort(rest, sub, c);
    ScanStep(rest, sub, optstring);
    assert rest[0..] == rest;
  }

  /** With one colon it takes what is attached to it, or else the next argument, which must be
      there. */
  lemma OptionRequires(rest: seq<string>, sub: nat, c: char, optstring: string, p: nat)
    requires Declares(optstring, p, c, 1) && InGroup(rest, sub, c)
    ensures var text := rest[0][sub + 2..];
            text != "" ==>
              NextCall(rest, sub, optstring) == Call(Opt(c), Given(text), [rest[0]], [], rest[1..], 0)
              && ScanAll(rest, sub, optstring) == Then(Event(c, Given(text)), [rest[0]], ScanAll(rest[1..], 0, optstring))
    ensures sub + 2 == |rest[0]| && |rest| > 1 ==>
              NextCall(rest, sub, optstring) == Call(Opt(c), Given(rest[1]), [rest[0], rest[1]], [], rest[2..], 0)
              && ScanAll(rest, sub, optstring)
                 == Then(Event(c, Given(rest[1])), [rest[0], rest[1]], ScanAll(rest[2..], 0, optstring))
    ensures sub + 2 == |rest[0]| && |rest| == 1 ==>
              NextCall(rest, sub, optstring) == Call(Bad(c), NoArg, rest, [], [], 0)
              && ScanAll(rest, sub, optstring) == Scan([], [], [], rest, false)
  {
    hide ArgTypeOf, ScanAll;
    Declared(optstring, p, c, 1);
    GroupShort(rest, sub, c);
    ScanStep(rest, sub, optstring);
    if |rest| > 1 { assert rest[..2] == [rest[0], rest[1]]; }
  }

  /** With two colons it takes what is attached to it and never the next argument. */
  lemma OptionAllows(rest: seq<string>, sub: nat, c: char, optstring: string, p: nat)
    requires Declares(optstring, p, c, 2) && InGroup(rest, sub, c)
    ensures var arg := if sub + 2 == |rest[0]| then NoArg else Given(rest[0][sub + 2..]);
            NextCall(rest, sub, optstring) == Call(Opt(c), arg, [rest[0]], [], rest[1..], 0)
            && ScanAll(rest, sub, optstring) == Then(Event(c, arg), [rest[0]], ScanAll(rest[1..], 0, optstring))
  {
    hide ArgTypeOf, ScanAll;
    Declared(optstring, p, c, 2);
    GroupShort(rest, sub, c);
    ScanStep(rest, sub, optstring);
  }

  /** A character that is not declared, and a colon, are answered with '?'. */
  lemma OptionUnknown(rest: seq<string>, sub: nat, c: char, optstring: string)
    requires (c == ':' || c !in optstring) && InGroup(rest, sub, c)
    ensures NextCall(rest, sub, optstring) == Call(Bad(c), NoArg, [rest[0]], [], rest[1..], sub)
    ensures ScanAll(rest, sub, optstring) == Scan([], [], [], rest, false)
  {
    hide ArgTypeOf, ScanAll;
    if c != ':' { NotDeclared(optstring, 0, c); }
    Colon(optstring);
    GroupShort(rest, sub, c);
    ScanStep(rest, sub, optstring);
  }

  /** Whole arguments: "-c" with what follows it, for an option that must have an argument. */
  lemma SeparateArgument(c: char, x: string, rest: seq<string>, optstring: string, p: nat)
    requires Declares(optstring, p, c, 1) && c != '-' && c != '\0'
    ensures NextCall([['-', c], x] + rest, 0, optstring) == Call(Opt(c), Given(x), [['-', c], x], [], rest, 0)
    ensures ScanAll([['-', c], x] + rest, 0, optstring) == Then(Event(c, Given(x)), [['-', c], x], ScanAll(rest, 0, optstring))
  {
    hide NextCall, ScanAll, Declares;
    var args := [['-', c], x] + rest;
    assert args[2..] == rest;
    OptionRequires(args, 0, c, optstring, p);
  }

  /** "--" ends the options and is used up; every other argument that starts no option, a single
      '-' and "--name" among them, is passed over, or ends the options if nothing is moved. */
  lemma ArgumentPassed(rest: seq<CString>, sub: nat, optstring: string, permute: bool)
    requires rest != []
    ensures rest[0] == "--" ==> CallOf(rest, sub, optstring, permute) == Call(Done, NoArg, ["--"], [], rest[1..], sub)
                                && ScanAll(rest, sub, optstring) == Scan([], ["--"], [], rest[1..], true)
    ensures rest[0] != "--" && (|rest[0]| < 2 || rest[0][0] != '-' || rest[0][1] == '-') ==>
              (if permute then
                 var r := NextCall(rest[1..], sub, optstring);
                 CallOf(rest, sub, optstring, true) == r.(passed := [rest[0]] + r.passed)
               else CallOf(rest, sub, optstring, false) == Call(Done, NoArg, [], [], rest, sub))
              && var t := ScanAll(rest[1..], sub, optstring);
                 ScanAll(rest, sub, optstring) == t.(others := [rest[0]] + t.others)
    ensures rest[0] != "--" && !(|rest[0]| < 2 || rest[0][0] != '-' || rest[0][1] == '-') ==>
              CallOf(rest, sub, optstring, permute) == NextCall(rest, sub, optstring)
  {
    hide Read;
    var arg := rest[0];
    assert |arg| >= 2 ==> arg[1] in arg;
    assert |arg| >= 3 ==> arg[2] in arg;
    assert IsDashDash(arg) <==> arg == "--";
  }

  /** Nothing left: -1, and nothing is used. */
  lemma NothingLeft(sub: nat, optstring: string, permute: bool)
    ensures CallOf([], sub, optstring, permute) == Call(Done, NoArg, [], [], [], sub)
    ensures ScanAll([], sub, optstring) == Scan([], [], [], [], true)
  {}

  lemma GroupShort(rest: seq<string>, sub: nat, c: char)
    requires InGroup(rest, sub, c)
    ensures IsShort(rest[0]) && !IsDashDash(rest[0])
    ensures var option := rest[0][sub + 1..]; CharAt(option, 0) == c && option[1..] == rest[0][sub + 2..]
  {}

  lemma ScanStep(rest: seq<string>, sub: nat, optstring: string)
    requires rest != [] && IsShort(rest[0]) && !IsDashDash(rest[0]) && sub + 1 <= |rest[0]|
    ensures var o := Read(rest, sub, optstring);
            o.used <= |rest| && !o.outcome.Done? && !o.outcome.Stray?
            && ScanAll(rest, sub, optstring)
               == if o.outcome.Bad? then Scan([], [], [], rest, false)
                  else Then(Event(o.outcome.c, o.arg), rest[..o.used], ScanAll(rest[o.used..], o.sub, optstring))
  {
    hide Read, IsShort, IsDashDash, Ready;
    ReadReady(rest, sub, optstring);
  }

  lemma Declared(optstring: string, p: nat, c: char, colons: nat)
    requires Declares(optstring, p, c, colons)
    ensures ArgTypeOf(optstring, c) == if colons == 0 then None else if colons == 1 then Required else Optional
  {
    DeclaredFrom(optstring, 0, p, c, colons);
  }

  lemma {:induction false} DeclaredFrom(optstring: string, i: nat, p: nat, c: char, colons: nat)
    requires Declares(optstring, p, c, colons) && i <= p
    ensures ArgTypeFrom(optstring, i, c) == if colons == 0 then None else if colons == 1 then Required else Optional
    decreases p - i
  {
    if i < p { DeclaredFrom(optstring, i + 1, p, c, colons); }
  }

  lemma {:induction false} NotDeclared(optstring: string, i: nat, c: char)
    requires c !in optstring && i <= |optstring|
    ensures ArgTypeFrom(optstring, i, c) == Unknown
    ensures i == 0 ==> ArgTypeOf(optstring, c) == Unknown
    decreases |optstring| - i
  {
    if i < |optstring| { NotDeclared(optstring, i + 1, c); }
  }

  lemma Colon(optstring: string)
    ensures ArgTypeOf(optstring, ':') == Unknown
  {}

  // ---------------------------------------------------------------- the parser

  /** The character a call is about, NUL when there is none. */
  function About(r: Outcome): char {
    match r
    case Opt(c) => c
    case Bad(c) => c
    case Done => '\0'
    case Stray => '\0'
  }

  class Options {
    const argv: array<CString>
    const permute: bool
    var optind: nat
    var subopt: nat
    var optopt: char
    var optarg: OptArg

    /** ogs_getopt_init */
    constructor (argv: array<CString>)
      requires argv.Length >= 1
      ensures this.argv == argv && permute && optind == 1 && subopt == 0
    {
      this.argv := argv;
      permute := true;
      optind := 1;
      subopt := 0;
      optopt := '\0';
      optarg := NoArg;
    }

    /** The arguments that have not been used up. */
    ghost function Rest(): seq<string>
      reads this, argv
      requires optind <= argv.Length
    {
      argv[optind..]
    }

    /** ogs_getopt_permute: one argument moved behind those up to optind. */
    method Permute(index: nat)
      requires index < optind <= argv.Length
      modifies argv
      ensures argv[..] == Rotated(old(argv[..]), index, optind)
    {
      ghost var a := argv[..];
      ghost var b := a[1..];
      var nonoption := argv[index];
      var i := index;
      while i < optind - 1
        invariant index <= i <= optind - 1
        invariant forall k :: index <= k < i ==> argv[k] == b[k]
        invariant forall k :: 0 <= k < argv.Length && !(index <= k < i) ==> argv[k] == a[k]
      {
        argv[i] := argv[i + 1];
        i := i + 1;
      }
      argv[optind - 1] := nonoption;
      ghost var shifted := b[index..optind - 1];
      assert shifted == a[index + 1..optind];
      ghost var r := a[..index] + shifted + [a[index]] + a[optind..];
      forall k | 0 <= k < |a| ensures argv[k] == r[k] {
        if k < index { assert r[k] == a[k]; }
        else if k < optind - 1 { assert r[k] == shifted[k - index] == b[k]; }
        else if k >= optind { assert r[k] == a[k]; }
      }
      assert argv[..] == r;
    }

    /** ogs_getopt.  Without permuting, the first non-option ends the options. */
    method Next(optstring: CString) returns (r: Outcome)
      requires optind <= argv.Length && Ready(Rest(), subopt)
      modifies this, argv
      ensures optind <= argv.Length
      ensures optopt == About(r)
      ensures var c := CallOf(old(Rest()), old(subopt), optstring, permute);
              r == c.outcome && optarg == c.arg && subopt == c.sub
              && Did(c, old(argv[..]), old(optind), argv[..], optind)
      decreases argv.Length - optind
    {
      hide Read, IsShort, IsDashDash, NextCall, CallOf, Ready, Did;
      ghost var a, rest := argv[..], Rest();
      ghost var c := CallOf(rest, subopt, optstring, permute);
      assert a[optind..] == rest;
      optopt := '\0';
      optarg := NoArg;
      if optind == argv.Length {
        CallEmpty(rest, subopt, optstring, permute);
        DidSame(c, a, optind);
        return Done;
      }
      var option: string := argv[optind];
      assert rest[0] == option;
      if IsDashDash(option) {
        CallDashes(rest, subopt, optstring, permute);
        DidSame(c, a, optind);
        optind := optind + 1;
        return Done;
      }
      if !IsShort(option) {
        assert Rest() == rest && argv[..] == a;
        r := Other(optstring, c, a);
        return;
      }
      CallShort(rest, subopt, optstring, permute);
      DidSame(c, a, optind);
      assert Rest() == rest && argv[..] == a;
      r := ReadOption(option, optstring);
    }

    /** A non-option: the end, or the rest first, and then the non-option moves behind what was
        used. */
    method Other(optstring: CString, ghost c: Call, ghost a: seq<string>) returns (r: Outcome)
      requires optind < argv.Length && !IsShort(argv[optind]) && !IsDashDash(argv[optind]) && Ready(Rest(), subopt)
      requires optarg == NoArg && optopt == '\0' && c == CallOf(Rest(), subopt, optstring, permute) && a == argv[..]
      modifies this, argv
      ensures optind <= argv.Length
      ensures optopt == About(r)
      ensures r == c.outcome && optarg == c.arg && subopt == c.sub && Did(c, a, old(optind), argv[..], optind)
      decreases argv.Length - optind, 0
    {
      hide Read, IsShort, IsDashDash, NextCall, CallOf, Ready, Did;
      CallOther(Rest(), subopt, optstring, permute);
      if !permute {
        DidSame(c, a, optind);
        return Done;
      }
      ghost var i, rest := optind, Rest();
      assert rest[0] == a[i];
      PassParts(rest, subopt, optstring);
      var index := optind;
      optind := optind + 1;
      assert rest[1..] == Rest();
      r := Next(optstring);
      ghost var c', b, j := NextCall(rest[1..], old(subopt), optstring), argv[..], optind;
      DidAfter(c', a, i + 1, b, j);
      Permute(index);
      optind := optind - 1;
      assert argv[..] == Rotated(b, index, j);
      DidPassed(c', a, i, b, j);
    }

    /** The next option of the argument at optind. */
    method ReadOption(first: string, optstring: CString) returns (r: Outcome)
      requires optind < argv.Length && argv[optind] == first && IsShort(first) && subopt + 1 <= |first|
      modifies this
      ensures optind <= argv.Length
      ensures optopt == About(r)
      ensures var o := Read(old(Rest()), old(subopt), optstring);
              r == o.outcome && optarg == o.arg && subopt == o.sub && optind == old(optind) + o.used
    {
      ghost var rest := Rest();
      var option := first[subopt + 1..];
      optopt := CharAt(option, 0);
      optarg := NoArg;
      var t := FindArgType(optstring, optopt);
      match t {
        case Unknown =>
          optind := optind + 1;
          return Bad(optopt);
        case None =>
          if |option| > 1 {
            subopt := subopt + 1;
          } else {
            subopt := 0;
            optind := optind + 1;
          }
          return Opt(optopt);
        case Required =>
          subopt := 0;
          optind := optind + 1;
          if |option| > 1 {
            optarg := Given(option[1..]);
          } else if optind < argv.Length {
            optarg := Given(argv[optind]);
            optind := optind + 1;
          } else {
            return Bad(optopt);
          }
          return Opt(optopt);
        case Optional =>
          subopt := 0;
          optind := optind + 1;
          if |option| > 1 {
            optarg := Given(option[1..]);
          }
          return Opt(optopt);
      }
    }

    /** A whole run, until -1 or the first '?'.  It reports what a scan from left to right finds,
        and leaves the options in front, then the non-options in their order, then what
        followed "--". */
    method Run(optstring: CString) returns (events: seq<Event>, clean: bool)
      requires permute && optind <= argv.Length && subopt == 0
      modifies this, argv
      ensures optind <= argv.Length && multiset(argv[..]) == multiset(old(argv[..]))
      ensures var s := ScanAll(old(Rest()), 0, optstring);
              clean == s.clean && events == s.events
              && (clean ==> optind == old(optind) + |s.options|
                            && argv[..] == old(argv[..optind]) + s.options + s.others + s.after)
    {
      hide ScanAll, Running, RunEnds;
      ghost var goal, front, options := ScanAll(Rest(), 0, optstring), argv[..optind], [];
      events := [];
      assert argv[..][optind..] == Rest() && argv[..][..optind] == front;
      RunStart(argv[..], optind, optstring);
      while true
        invariant optind <= argv.Length && multiset(argv[..]) == multiset(old(argv[..]))
        invariant Running(argv[..], optind, subopt, front, options, events, goal, optstring)
        decreases |ScanAll(argv[..][optind..], subopt, optstring).events|
      {
        var r;
        r, options := RunOne(optstring, front, options, events, goal);
        if r.Bad? {
          return events, false;
        }
        if r.Done? {
          EndIs(argv[..], front, events, goal);
          return events, true;
        }
        events := events + [Event(r.c, optarg)];
      }
    }

    method RunOne(optstring: CString, ghost front: seq<string>, ghost options: seq<string>, ghost events: seq<Event>,
                  ghost goal: Scan)
      returns (r: Outcome, ghost options': seq<string>)
      requires permute && optind <= argv.Length
               && Running(argv[..], optind, subopt, front, options, events, goal, optstring)
      modifies this, argv
      ensures optind <= argv.Length && multiset(argv[..]) == multiset(old(argv[..]))
      ensures !r.Stray? && (r.Bad? ==> !goal.clean && events == goal.events)
      ensures r.Done? ==> RunEnds(argv[..], front, events, goal) && optind == |front| + |goal.options|
      ensures r.Opt? ==>
                Running(argv[..], optind, subopt, front, options', events + [Event(r.c, optarg)], goal, optstring)
                         && |ScanAll(argv[..][optind..], subopt, optstring).events| < |old(ScanAll(argv[..][optind..], subopt, optstring).events)|
    {
      hide ScanAll, NextCall, Ready, Running, RunEnds;
      ghost var a, i, sub := argv[..], optind, subopt;
      assert a[i..] == Rest() && argv[..optind] == a[..i];
      ghost var c := NextCall(a[i..], sub, optstring);
      RunStep(a, i, sub, front, options, events, goal, optstring);
      options' := options + c.used;
      r := Next(optstring);
    }

    /** ogs_getopt_arg: the next argument, whatever it is. */
    method Arg() returns (arg: OptArg)
      requires optind <= argv.Length
      modifies this`optind, this`subopt
      ensures subopt == 0 && optind <= argv.Length
      ensures if old(Rest()) == [] then arg == NoArg && optind == old(optind) else arg == Given(old(Rest())[0]) && Rest() == old(Rest())[1..]
    {
      subopt := 0;
      if optind < argv.Length {
        arg := Given(argv[optind]);
        optind := optind + 1;
      } else {
        arg := NoArg;
      }
    }
  }

  lemma CallEmpty(rest: seq<string>, sub: nat, optstring: string, permute: bool)
    requires rest == []
    ensures CallOf(rest, sub, optstring, permute) == Call(Done, NoArg, [], [], [], sub)
    ensures var c := CallOf(rest, sub, optstring, permute); rest == c.used + c.passed + c.rest
  {}

  lemma CallDashes(rest: seq<string>, sub: nat, optstring: string, permute: bool)
    requires rest != [] && IsDashDash(rest[0])
    ensures CallOf(rest, sub, optstring, permute) == Call(Done, NoArg, [rest[0]], [], rest[1..], sub)
    ensures var c := CallOf(rest, sub, optstring, permute); rest == c.used + c.passed + c.rest
  {}

  lemma CallOther(rest: seq<string>, sub: nat, optstring: string, permute: bool)
    requires rest != [] && !IsDashDash(rest[0]) && !IsShort(rest[0])
    ensures permute ==> CallOf(rest, sub, optstring, permute) == NextCall(rest, sub, optstring)
    ensures !permute ==> CallOf(rest, sub, optstring, permute) == Call(Done, NoArg, [], [], rest, sub)
    ensures var c := CallOf(rest, sub, optstring, permute); !permute ==> rest == c.used + c.passed + c.rest
  {}

  lemma CallShort(rest: seq<string>, sub: nat, optstring: string, permute: bool)
    requires rest != [] && IsShort(rest[0]) && Ready(rest, sub)
    ensures sub + 1 <= |rest[0]|
    ensures var o, c := Read(rest, sub, optstring), CallOf(rest, sub, optstring, permute);
            o.outcome == c.outcome && o.arg == c.arg && o.sub == c.sub && o.used == |c.used|
            && rest == c.used + c.passed + c.rest
  {
    hide Read;
    ShortLength(rest[0]);
    ReadReady(rest, sub, optstring);
    var o := Read(rest, sub, optstring);
    assert rest == rest[..o.used] + [] + rest[o.used..];
  }

  lemma PassParts(rest: seq<string>, sub: nat, optstring: string)
    requires rest != [] && !IsShort(rest[0]) && !IsDashDash(rest[0]) && Ready(rest, sub)
    ensures Ready(rest[1..], sub)
    ensures var c := NextCall(rest[1..], sub, optstring);
            NextCall(rest, sub, optstring) == c.(passed := [rest[0]] + c.passed)
            && CallOf(rest[1..], sub, optstring, true) == c
  {
    hide IsShort, IsDashDash, Read;
  }

  function CallOf(rest: seq<string>, sub: nat, optstring: string, permute: bool): Call {
    if !permute && rest != [] && !IsDashDash(rest[0]) && !IsShort(rest[0]) then Call(Done, NoArg, [], [], rest, sub)
    else NextCall(rest, sub, optstring)
  }

  /** The arguments from i on are now those that the call used up, those it passed, and the
      others; j is where it stopped. */
  ghost predicate Did(c: Call, a: seq<string>, i: nat, b: seq<string>, j: nat) {
    i <= |a| && j == i + |c.used| && b == a[..i] + c.used + c.passed + c.rest
  }

  lemma DidSame(c: Call, a: seq<string>, i: nat)
    requires i <= |a| && a[i..] == c.used + c.passed + c.rest
    ensures Did(c, a, i, a, i + |c.used|) && i + |c.used| <= |a|
  {
    assert a == a[..i] + a[i..];
    assert |a| == i + |c.used| + |c.passed| + |c.rest|;
  }

  lemma DidAfter(c: Call, a: seq<string>, i: nat, b: seq<string>, j: nat)
    requires Did(c, a, i, b, j)
    ensures i <= j <= |b|
  {}

  /** Element i moved behind those up to n. */
  function Rotated(b: seq<string>, i: nat, n: nat): seq<string>
    requires i < n <= |b|
  {
    b[..i] + b[i + 1..n] + [b[i]] + b[n..]
  }

  /** After the move the non-option comes first among those passed. */
  lemma DidPassed(c: Call, a: seq<string>, i: nat, b: seq<string>, j: nat)
    requires i < |a| && Did(c, a, i + 1, b, j) && j <= |b|
    ensures Did(c.(passed := [a[i]] + c.passed), a, i, Rotated(b, i, j), j - 1)
  {
    assert b[..i] == a[..i] && b[i] == a[i] && b[i + 1..j] == c.used && b[j..] == c.passed + c.rest;
    assert Rotated(b, i, j) == a[..i] + c.used + ([a[i]] + c.passed) + c.rest;
  }

  lemma ReadyStart(rest: seq<string>)
    ensures Ready(rest, 0)
  {}

  // ---------------------------------------------------------------- after a '?'

  /** A call reads behind an argument exactly when the position is beyond its end. */
  lemma {:induction false} StrayCall(rest: seq<string>, sub: nat, optstring: string)
    ensures NextCall(rest, sub, optstring).outcome.Stray? <==> !Ready(rest, sub)
    decreases |rest|
  {
    hide Read, IsShort, IsDashDash;
    if rest != [] && !IsDashDash(rest[0]) {
      if IsShort(rest[0]) {
        ShortLength(rest[0]);
        if sub + 1 <= |rest[0]| { ReadReady(rest, sub, optstring); }
      } else {
        StrayCall(rest[1..], sub, optstring);
      }
    }
  }

  /** There is an option before "--". */
  predicate HasOption(rest: seq<string>)
    decreases |rest|
  {
    rest != [] && !IsDashDash(rest[0]) && (IsShort(rest[0]) || HasOption(rest[1..]))
  }

  function FirstOption(rest: seq<string>): string
    requires HasOption(rest)
    decreases |rest|
  {
    if IsShort(rest[0]) then rest[0] else FirstOption(rest[1..])
  }

  /** The same result, and the same place to go on unless there is nothing more to read. */
  predicate Agree(a: Call, b: Call) {
    a == b || (a.outcome.Done? && a == b.(sub := a.sub))
  }

  /** Exactly when a '?' spoils the calls after it.  An unknown option in the middle of a group
      leaves the position as it was, so the next option is read from there: never as it should
      be, and behind its end if it is shorter. */
  lemma AfterBad(rest: seq<string>, sub: nat, optstring: string)
    requires Ready(rest, sub) && NextCall(rest, sub, optstring).outcome.Bad?
    ensures var r := NextCall(rest, sub, optstring);
            var left := r.passed + r.rest;
            var spoilt := sub > 0 && ArgTypeOf(optstring, r.outcome.c) == Unknown && HasOption(left);
            (Agree(NextCall(left, r.sub, optstring), NextCall(left, 0, optstring)) <==> !spoilt)
            && (Ready(left, r.sub) <==> (spoilt ==> sub + 1 <= |FirstOption(left)|))
  {
    hide NextCall, Ready, HasOption, FirstOption, ArgTypeOf, Agree;
    var r := NextCall(rest, sub, optstring);
    var left := r.passed + r.rest;
    BadPosition(rest, sub, optstring);
    if r.sub == 0 {
      ReadyStart(left);
      AgreeSelf(NextCall(left, 0, optstring));
    } else {
      StartMatters(left, r.sub, optstring);
      ReadyOption(left, r.sub);
    }
  }

  lemma AgreeSelf(a: Call)
    ensures Agree(a, a)
  {}

  /** An unknown option leaves the position within the group as it was. */
  lemma {:induction false} BadPosition(rest: seq<string>, sub: nat, optstring: string)
    requires NextCall(rest, sub, optstring).outcome.Bad?
    ensures var r := NextCall(rest, sub, optstring);
            r.sub == if ArgTypeOf(optstring, r.outcome.c) == Unknown then sub else 0
    decreases |rest|
  {
    hide ArgTypeOf, IsDashDash, IsShort;
    if rest != [] && !IsDashDash(rest[0]) && !IsShort(rest[0]) { BadPosition(rest[1..], sub, optstring); }
  }

  lemma {:induction false} ReadyOption(rest: seq<string>, sub: nat)
    requires sub > 0
    ensures Ready(rest, sub) <==> (HasOption(rest) ==> sub + 1 <= |FirstOption(rest)|)
    decreases |rest|
  {
    hide IsDashDash, IsShort;
    if rest != [] && !IsDashDash(rest[0]) && !IsShort(rest[0]) { ReadyOption(rest[1..], sub); }
  }

  /** Starting in the middle makes a difference exactly when there is an option to read. */
  lemma {:induction false} StartMatters(rest: seq<string>, sub: nat, optstring: string)
    requires sub > 0
    ensures Agree(NextCall(rest, sub, optstring), NextCall(rest, 0, optstring)) <==> !HasOption(rest)
    decreases |rest|
  {
    hide IsDashDash, IsShort, Read, Agree;
    if rest == [] || IsDashDash(rest[0]) {
      AgreeDone(NextCall(rest, sub, optstring), NextCall(rest, 0, optstring));
    } else if IsShort(rest[0]) {
      ShortLength(rest[0]);
      ReadsDiffer(rest, sub, optstring);
    } else {
      StartMatters(rest[1..], sub, optstring);
      AgreePassed(NextCall(rest[1..], sub, optstring), NextCall(rest[1..], 0, optstring), rest[0]);
    }
  }

  lemma AgreeDone(a: Call, b: Call)
    requires a.outcome.Done? && a == b.(sub := a.sub)
    ensures Agree(a, b)
  {}

  lemma AgreePassed(a: Call, b: Call, x: string)
    ensures Agree(a.(passed := [x] + a.passed), b.(passed := [x] + b.passed)) <==> Agree(a, b)
  {
    assert ([x] + a.passed)[1..] == a.passed && ([x] + b.passed)[1..] == b.passed;
  }

  lemma ReadsDiffer(rest: seq<string>, sub: nat, optstring: string)
    requires sub > 0 && rest != [] && IsShort(rest[0])
    ensures !Agree(NextCall(rest, sub, optstring), NextCall(rest, 0, optstring))
  {
    hide ArgTypeOf, ArgTypeFrom;
    var arg := rest[0];
    ShortLength(arg);
    if sub + 1 <= |arg| {
      var o, o0 := Read(rest, sub, optstring), Read(rest, 0, optstring);
      var option, option0 := arg[sub + 1..], arg[1..];
      assert |option0| == |option| + sub && option0[0] == arg[1] != '\0';
      if o.used != o0.used { assert |rest[..o.used]| != |rest[..o0.used]|; }
    }
  }

  /** Of "-bc", the option b is never reported: the '?' for z comes in the middle of "-az". */
  lemma SkippedAfterBad()
    ensures var args := ["-az", "-bc"];
            NextCall(args, 0, "abc") == Call(Opt('a'), NoArg, [], [], args, 1)
            && NextCall(args, 1, "abc") == Call(Bad('z'), NoArg, ["-az"], [], ["-bc"], 1)
            && NextCall(["-bc"], 1, "abc") == Call(Opt('c'), NoArg, ["-bc"], [], [], 0)
  {
    hide ArgTypeOf, NextCall, Read;
    TypesOfAbc();
    var args := ["-az", "-bc"];
    assert "-az"[1..] == "az" && "-az"[2..] == "z" && "-bc"[2..] == "c";
    ReadGroup(args, 0, "abc");
    ReadUnknown(args, 1, "abc");
    assert args[1..] == ["-bc"];
    ReadLast(["-bc"], 1, "abc");
  }

  /** After "-abz" the next option is read from its fourth character, and "-c" has only two. */
  lemma StrayAfterBad()
    ensures var args := ["-abz", "-c"];
            NextCall(args, 0, "abc") == Call(Opt('a'), NoArg, [], [], args, 1)
            && NextCall(args, 1, "abc") == Call(Opt('b'), NoArg, [], [], args, 2)
            && NextCall(args, 2, "abc") == Call(Bad('z'), NoArg, ["-abz"], [], ["-c"], 2)
            && NextCall(["-c"], 2, "abc").outcome == Stray
  {
    hide ArgTypeOf, NextCall, Read;
    TypesOfAbc();
    var args := ["-abz", "-c"];
    assert "-abz"[1..] == "abz" && "-abz"[2..] == "bz" && "-abz"[3..] == "z";
    ReadGroup(args, 0, "abc");
    ReadGroup(args, 1, "abc");
    ReadUnknown(args, 2, "abc");
    assert args[1..] == ["-c"];
    ReadBehind(["-c"], 2, "abc");
  }

  /** A call on an option without an argument that is not the last of its group. */
  lemma ReadGroup(rest: seq<string>, sub: nat, optstring: string)
    requires rest != [] && IsShort(rest[0]) && sub + 2 < |rest[0]| && ArgTypeOf(optstring, rest[0][sub + 1]) == None
    ensures NextCall(rest, sub, optstring) == Call(Opt(rest[0][sub + 1]), NoArg, [], [], rest, sub + 1)
  {
    hide ArgTypeOf;
    ShortLength(rest[0]);
    assert rest[0..] == rest;
  }

  lemma ReadLast(rest: seq<string>, sub: nat, optstring: string)
    requires rest != [] && IsShort(rest[0]) && sub + 2 == |rest[0]| && ArgTypeOf(optstring, rest[0][sub + 1]) == None
    ensures NextCall(rest, sub, optstring) == Call(Opt(rest[0][sub + 1]), NoArg, [rest[0]], [], rest[1..], 0)
  {
    hide ArgTypeOf;
    ShortLength(rest[0]);
  }

  lemma ReadUnknown(rest: seq<string>, sub: nat, optstring: string)
    requires rest != [] && IsShort(rest[0]) && sub + 1 < |rest[0]| && ArgTypeOf(optstring, rest[0][sub + 1]) == Unknown
    ensures NextCall(rest, sub, optstring) == Call(Bad(rest[0][sub + 1]), NoArg, [rest[0]], [], rest[1..], sub)
  {
    hide ArgTypeOf;
    ShortLength(rest[0]);
  }

  lemma ReadBehind(rest: seq<string>, sub: nat, optstring: string)
    requires rest != [] && IsShort(rest[0]) && sub + 1 > |rest[0]|
    ensures NextCall(rest, sub, optstring).outcome == Stray
  {
    ShortLength(rest[0]);
  }

  lemma TypesOfAbc()
    ensures ArgTypeOf("abc", 'a') == ArgTypeOf("abc", 'b') == ArgTypeOf("abc", 'c') == None
    ensures ArgTypeOf("abc", 'z') == Unknown
  {
    var abc := "abc";
    assert ArgTypeFrom(abc, 3, 'z') == Unknown;
    assert ArgTypeFrom(abc, 2, 'z') == Unknown;
    assert ArgTypeFrom(abc, 1, 'z') == Unknown;
    assert ArgTypeFrom(abc, 2, 'c') == None;
    assert ArgTypeFrom(abc, 1, 'c') == None;
    assert ArgTypeFrom(abc, 1, 'b') == None;
  }

  // ---------------------------------------------------------------- a whole run

  /** In the middle of a run: what was reported and used up, followed by a scan of the rest, is
      the scan of the whole. */
  ghost predicate Running(a: seq<string>, i: nat, sub: nat, front: seq<string>, options: seq<string>,
                          events: seq<Event>, goal: Scan, optstring: string) {
    && i <= |a| && a[..i] == front + options && Ready(a[i..], sub)
    && var t := ScanAll(a[i..], sub, optstring); goal == t.(events := events + t.events, options := options + t.options)
  }

  ghost predicate RunEnds(a: seq<string>, front: seq<string>, events: seq<Event>, goal: Scan) {
    goal.clean && events == goal.events && a == front + goal.options + goal.others + goal.after
  }

  lemma EndIs(a: seq<string>, front: seq<string>, events: seq<Event>, goal: Scan)
    requires RunEnds(a, front, events, goal)
    ensures goal.clean && events == goal.events && a == front + goal.options + goal.others + goal.after
  {}

  lemma RunStart(a: seq<string>, i: nat, optstring: string)
    requires i <= |a|
    ensures Running(a, i, 0, a[..i], [], [], ScanAll(a[i..], 0, optstring), optstring)
  {
    hide ScanAll;
    ReadyStart(a[i..]);
    var t := ScanAll(a[i..], 0, optstring);
    assert [] + t.events == t.events && [] + t.options == t.options;
  }

  lemma RunStep(a: seq<string>, i: nat, sub: nat, front: seq<string>, options: seq<string>, events: seq<Event>,
                goal: Scan, optstring: string)
    requires Running(a, i, sub, front, options, events, goal, optstring)
    ensures i <= |a| && Ready(a[i..], sub)
    ensures var c := NextCall(a[i..], sub, optstring);
            var b := a[..i] + c.used + c.passed + c.rest;
            multiset(b) == multiset(a) && !c.outcome.Stray?
            && (if c.outcome.Bad? then !goal.clean && events == goal.events
                else if c.outcome.Done? then RunEnds(b, front, events, goal) && i + |c.used| == |front| + |goal.options|
                else Running(b, i + |c.used|, c.sub, front, options + c.used, events + [Event(c.outcome.c, c.arg)], goal, optstring)
                     && |ScanAll(b[i + |c.used|..], c.sub, optstring).events| < |ScanAll(a[i..], sub, optstring).events|)
  {
    hide ScanAll, NextCall, Ready;
    var rest := a[i..];
    var c := NextCall(rest, sub, optstring);
    var b, n := a[..i] + c.used + c.passed + c.rest, i + |c.used|;
    CallStep(rest, sub, optstring);
    CallParts(rest, sub, optstring);
    assert a == a[..i] + rest && b == a[..i] + (c.used + c.passed + c.rest);
    assert events + [] == events;
    if c.outcome.Done? {
      assert b == front + (options + c.used) + c.passed + c.rest;
    } else if c.outcome.Opt? {
      assert b[n..] == c.passed + c.rest && b[..n] == front + (options + c.used);
      var t, e := ScanAll(b[n..], c.sub, optstring), Event(c.outcome.c, c.arg);
      assert (events + [e]) + t.events == events + ([e] + t.events);
      assert (options + c.used) + t.options == options + (c.used + t.options);
    }
  }
}
