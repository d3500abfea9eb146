/**
 Validation and compilation of a test definition: instruction ordering, grouping by
 timestamp, and the number of ticks the rig must report.
 */
module Compiler {
  import opened Basics
  import opened Definition

  datatype CompileError =
    | InvalidChannel
    | NonSequentialId
    | UnconfiguredChannel
    | InvalidTick
    | TooManyTicks

  datatype CompiledTest = CompiledTest(
    testId: nat,
    hertz: nat,
    expectedTickCount: int,
    startMode: StartMode,
    configurations: map<Channel, Parameters>,
    instructions: seq<Instruction>,
    assertions: seq<Assertion>)

  const SETTLING_SECONDS: nat := 1
  const MAX_EXPECTED_TICK_COUNT_EXCLUSIVE: int := 1_000_000

  // ---------- Instruction order ----------

  /** The compiler's sort key: timestamp first, instruction ID second. */
  predicate Precedes(a: Instruction, b: Instruction) {
    a.tick < b.tick || (a.tick == b.tick && a.id <= b.id)
  }

  ghost predicate Sorted(s: seq<Instruction>) {
    forall i, j :: 0 <= i < j < |s| ==> Precedes(s[i], s[j])
  }

  function Insert(x: Instruction, s: seq<Instruction>): seq<Instruction> {
    if s == [] || Precedes(x, s[0]) then [x] + s else [s[0]] + Insert(x, s[1..])
  }

  function Sort(s: seq<Instruction>): seq<Instruction> {
    if s == [] then [] else Insert(s[0], Sort(s[1..]))
  }

  lemma {:induction false} InsertKeepsOrder(x: Instruction, s: seq<Instruction>)
    requires Sorted(s)
    ensures Sorted(Insert(x, s))
    ensures multiset(Insert(x, s)) == multiset(s) + multiset{x}
  {
    if s == [] || Precedes(x, s[0]) {
    } else {
      InsertKeepsOrder(x, s[1..]);
      var t := Insert(x, s[1..]);
      forall y | y in t
        ensures Precedes(s[0], y)
      {
        assert y in multiset(t);
      }
      assert s == [s[0]] + s[1..];
    }
  }

  /** Compilation loses and invents no instruction, and its order is the sort key's. */
  lemma {:induction false} SortIsSortedPermutation(s: seq<Instruction>)
    ensures Sorted(Sort(s))
    ensures multiset(Sort(s)) == multiset(s)
  {
    if s != [] {
      SortIsSortedPermutation(s[1..]);
      InsertKeepsOrder(s[0], Sort(s[1..]));
      assert s == [s[0]] + s[1..];
    }
  }

  ghost predicate AscendingIds(s: seq<Instruction>) {
    forall i, j :: 0 <= i < j < |s| ==> s[i].id < s[j].id
  }

  function At(t: int): Instruction -> bool {
    (i: Instruction) => i.tick == t
  }

  lemma {:induction false} InsertAtTick(x: Instruction, s: seq<Instruction>, t: int)
    requires forall y :: y in s ==> x.id < y.id
    ensures Filter(At(t), Insert(x, s)) == Filter(At(t), [x] + s)
  {
    if s == [] || Precedes(x, s[0]) {
    } else {
      InsertAtTick(x, s[1..], t);
      assert s[0] in s && s[0].tick < x.tick;
      assert s == [s[0]] + s[1..];
      FilterConcat(At(t), [x], s);
      FilterConcat(At(t), [x], s[1..]);
      assert Insert(x, s)[1..] == Insert(x, s[1..]);
    }
  }

  /** Sorting leaves the instructions of any one tick in their creation order. */
  lemma {:induction false} SortKeepsEachTick(s: seq<Instruction>, t: int)
    requires AscendingIds(s)
    ensures Filter(At(t), Sort(s)) == Filter(At(t), s)
  {
    if s != [] {
      SortKeepsEachTick(s[1..], t);
      SortIsSortedPermutation(s[1..]);
      forall y | y in Sort(s[1..])
        ensures s[0].id < y.id
      {
        assert y in multiset(Sort(s[1..]));
        var k :| 0 <= k < |s[1..]| && s[1..][k] == y;
        assert s[k + 1] == y;
      }
      InsertAtTick(s[0], Sort(s[1..]), t);
      FilterConcat(At(t), [s[0]], Sort(s[1..]));
      FilterConcat(At(t), [s[0]], s[1..]);
      assert s == [s[0]] + s[1..];
    }
  }

  // ---------- The public list's own stable sort ----------

  /** One step of a stable sort on the timestamp alone. */
  function InsertStable(x: Instruction, s: seq<Instruction>): seq<Instruction> {
    if s == [] || x.tick <= s[0].tick then [x] + s else [s[0]] + InsertStable(x, s[1..])
  }

  /** `InstructionList.ordered`: instructions sorted stably by timestamp. */
  function Ordered(s: seq<Instruction>): seq<Instruction> {
    if s == [] then [] else InsertStable(s[0], Ordered(s[1..]))
  }

  lemma {:induction false} InsertsAgree(x: Instruction, s: seq<Instruction>)
    requires forall y :: y in s ==> x.id < y.id
    ensures InsertStable(x, s) == Insert(x, s)
  {
    if s != [] {
      InsertsAgree(x, s[1..]);
      assert s[0] in s;
    }
  }

  /** On sequentially identified instructions the two orders of the code base agree. */
  lemma {:induction false} OrderedIsSort(s: seq<Instruction>)
    requires AscendingIds(s)
    ensures Ordered(s) == Sort(s)
  {
    if s != [] {
      OrderedIsSort(s[1..]);
      SortIsSortedPermutation(s[1..]);
      forall y | y in Sort(s[1..])
        ensures s[0].id < y.id
      {
        assert y in multiset(Sort(s[1..]));
        var k :| 0 <= k < |s[1..]| && s[1..][k] == y;
        assert s[k + 1] == y;
      }
      InsertsAgree(s[0], Sort(s[1..]));
    }
  }

  // ---------- Time slots ----------

  /** Groups hold exactly the instructions of their tick, in order, and every instruction has its group. */
  ghost predicate GroupsByTick(order: seq<int>, grouped: map<int, seq<Instruction>>, s: seq<Instruction>) {
    && (forall t :: t in order <==> t in grouped)
    && (forall t :: t in grouped <==> Filter(At(t), s) != [])
    && (forall t :: t in grouped ==> grouped[t] == Filter(At(t), s))
  }

  ghost predicate Ascending(order: seq<int>) {
    forall i, j :: 0 <= i < j < |order| ==> order[i] < order[j]
  }

  lemma GroupOne(order: seq<int>, grouped: map<int, seq<Instruction>>, s: seq<Instruction>, x: Instruction)
    requires GroupsByTick(order, grouped, s)
    ensures GroupsByTick(
      if x.tick in grouped then order else order + [x.tick],
      grouped[x.tick := (if x.tick in grouped then grouped[x.tick] else []) + [x]], s + [x])
  {
    forall t
      ensures Filter(At(t), s + [x]) == Filter(At(t), s) + if x.tick == t then [x] else []
    {
      FilterConcat(At(t), s, [x]);
      assert [x][1..] == [];
    }
  }

  lemma NewTickIsLast(order: seq<int>, grouped: map<int, seq<Instruction>>, s: seq<Instruction>, k: nat)
    requires k < |s| && GroupsByTick(order, grouped, s[..k])
    requires Sorted(s) ==> Ascending(order)
    ensures Sorted(s) && s[k].tick !in grouped ==> Ascending(order + [s[k].tick])
  {
    if Sorted(s) && s[k].tick !in grouped {
      forall n | 0 <= n < |order|
        ensures order[n] < s[k].tick
      {
        assert order[n] in order;
        var i := Filter(At(order[n]), s[..k])[0];
        assert i in Filter(At(order[n]), s[..k]);
        var j :| 0 <= j < k && s[j] == i;
        assert Precedes(s[j], s[k]);
      }
    }
  }

  /** `setdefault` and `append`: a new tick gets its key at the end. */
  method Enlist(order: seq<int>, grouped: map<int, seq<Instruction>>, x: Instruction)
    returns (newOrder: seq<int>, newGrouped: map<int, seq<Instruction>>)
    ensures newOrder == if x.tick in grouped then order else order + [x.tick]
    ensures newGrouped == grouped[x.tick := (if x.tick in grouped then grouped[x.tick] else []) + [x]]
  {
    newOrder, newGrouped := order, grouped;
    if x.tick !in newGrouped {
      newOrder := newOrder + [x.tick];
      newGrouped := newGrouped[x.tick := []];
    }
    newGrouped := newGrouped[x.tick := newGrouped[x.tick] + [x]];
  }

  lemma EnlistingKeeps(order: seq<int>, grouped: map<int, seq<Instruction>>, s: seq<Instruction>, k: nat,
                       newOrder: seq<int>, newGrouped: map<int, seq<Instruction>>)
    requires k < |s| && GroupsByTick(order, grouped, s[..k])
    requires Sorted(s) ==> Ascending(order)
    requires newOrder == if s[k].tick in grouped then order else order + [s[k].tick]
    requires newGrouped == grouped[s[k].tick := (if s[k].tick in grouped then grouped[s[k].tick] else []) + [s[k]]]
    ensures GroupsByTick(newOrder, newGrouped, s[..k + 1])
    ensures Sorted(s) ==> Ascending(newOrder)
  {
    GroupOne(order, grouped, s[..k], s[k]);
    NewTickIsLast(order, grouped, s, k);
    assert s[..k + 1] == s[..k] + [s[k]];
  }

  /**
   `_build_time_slots` and `InstructionList.group_by_timestamp`: a dictionary from tick to instructions. Its keys
   come in order of first appearance, which for sorted instructions is ascending.
   */
  method BuildTimeSlots(s: seq<Instruction>) returns (order: seq<int>, grouped: map<int, seq<Instruction>>)
    ensures GroupsByTick(order, grouped, s)
    ensures Sorted(s) ==> Ascending(order)
  {
    order, grouped := [], map[];
    var k := 0;
    while k < |s|
      invariant 0 <= k <= |s|
      invariant GroupsByTick(order, grouped, s[..k])
      invariant Sorted(s) ==> Ascending(order)
    {
      ghost var before, groupedBefore := order, grouped;
      order, grouped := Enlist(order, grouped, s[k]);
      EnlistingKeeps(before, groupedBefore, s, k, order, grouped);
      k := k + 1;
    }
    assert s[..k] == s;
  }

  lemma AscendingHead(a: seq<int>)
    requires Ascending(a) && a != []
    ensures a[0] in a && Ascending(a[1..])
    ensures forall t :: t in a ==> a[0] <= t
    ensures forall t :: t in a[1..] <==> t in a && t != a[0]
  {
    assert a == [a[0]] + a[1..];
  }

  lemma {:induction false} AscendingIsUnique(a: seq<int>, b: seq<int>)
    requires Ascending(a) && Ascending(b)
    requires forall t :: t in a <==> t in b
    ensures a == b
  {
    if a != [] {
      AscendingHead(a);
    }
    if b != [] {
      AscendingHead(b);
    }
    if a != [] && b != [] {
      AscendingIsUnique(a[1..], b[1..]);
      assert a == [a[0]] + a[1..] && b == [b[0]] + b[1..];
    }
  }

  /** The compiled time slots are the groups of the public instruction list, and each slot keeps creation order. */
  lemma TimeSlotsAgree(s: seq<Instruction>, order: seq<int>, slots: map<int, seq<Instruction>>,
                       publicOrder: seq<int>, groups: map<int, seq<Instruction>>)
    requires AscendingIds(s)
    requires GroupsByTick(order, slots, Sort(s)) && Ascending(order)
    requires GroupsByTick(publicOrder, groups, Ordered(s)) && Ascending(publicOrder)
    ensures order == publicOrder && slots == groups
    ensures forall t :: t in slots ==> slots[t] == Filter(At(t), s)
  {
    OrderedIsSort(s);
    AscendingIsUnique(order, publicOrder);
    forall t
      ensures t in slots <==> t in groups
      ensures t in slots ==> slots[t] == groups[t]
    {
      assert t in slots <==> Filter(At(t), Sort(s)) != [];
      assert t in groups <==> Filter(At(t), Ordered(s)) != [];
    }
    forall t | t in slots
      ensures slots[t] == Filter(At(t), s)
    {
      SortKeepsEachTick(s, t);
    }
  }

  // ---------- Validation ----------

  predicate Configured(c: Channel, channels: map<Channel, Parameters>) {
    c in channels && Fits(c.kind, channels[c])
  }

  /** The first complaint about one instruction, in the order the checks are made. */
  function InstructionFault(i: Instruction, expectedId: int, channels: map<Channel, Parameters>): Option<CompileError> {
    if i.id != expectedId then Some(NonSequentialId)
    else if !i.channel.Valid() then Some(InvalidChannel)
    else if !Configured(i.channel, channels) then Some(UnconfiguredChannel)
    else if i.tick < 0 then Some(InvalidTick)
    else None
  }

  function AssertionFault(a: Assertion, expectedId: int, channels: map<Channel, Parameters>): Option<CompileError> {
    if a.id != expectedId then Some(NonSequentialId)
    else if !a.channel.Valid() then Some(InvalidChannel)
    else if !Configured(a.channel, channels) then Some(UnconfiguredChannel)
    else if a.check.FirstTick() < 0 || a.check.LastTick() < 0 then Some(InvalidTick)
    else if a.check.FirstTick() > a.check.LastTick() then Some(InvalidTick)
    else None
  }

  /** The fault of the first faulty item at or after position `k`. */
  function FirstFault<T>(fault: (T, int) -> Option<CompileError>, s: seq<T>, k: nat): (r: Option<CompileError>)
    requires k <= |s|
    ensures r.None? <==> forall j :: k <= j < |s| ==> fault(s[j], j).None?
    ensures r.Some? ==>
      exists j :: k <= j < |s| && fault(s[j], j) == r && forall i :: k <= i < j ==> fault(s[i], i).None?
    decreases |s| - k
  {
    if k == |s| then None
    else if fault(s[k], k).Some? then fault(s[k], k)
    else FirstFault(fault, s, k + 1)
  }

  function InstructionFaults(d: TestDefinition): Option<CompileError> {
    FirstFault((i, k) => InstructionFault(i, k, d.channels), d.instructions, 0)
  }

  function AssertionFaults(d: TestDefinition): Option<CompileError> {
    FirstFault((a, k) => AssertionFault(a, k, d.channels), d.assertions, 0)
  }

  predicate ChannelsValid(channels: map<Channel, Parameters>) {
    forall c :: c in channels ==> c.Valid()
  }

  /** `_validate_instructions`: stops at the first fault. */
  method ValidateInstructions(d: TestDefinition) returns (fault: Option<CompileError>)
    ensures fault == InstructionFaults(d)
  {
    var k := 0;
    while k < |d.instructions|
      invariant 0 <= k <= |d.instructions|
      invariant InstructionFaults(d) == FirstFault((i, k) => InstructionFault(i, k, d.channels), d.instructions, k)
    {
      fault := InstructionFault(d.instructions[k], k, d.channels);
      if fault.Some? {
        return;
      }
      k := k + 1;
    }
    return None;
  }

  /** `_validate_assertions`: stops at the first fault. */
  method ValidateAssertions(d: TestDefinition) returns (fault: Option<CompileError>)
    ensures fault == AssertionFaults(d)
  {
    var k := 0;
    while k < |d.assertions|
      invariant 0 <= k <= |d.assertions|
      invariant AssertionFaults(d) == FirstFault((a, k) => AssertionFault(a, k, d.channels), d.assertions, k)
    {
      fault := AssertionFault(d.assertions[k], k, d.channels);
      if fault.Some? {
        return;
      }
      k := k + 1;
    }
    return None;
  }

  // ---------- Expected tick count ----------

  ghost predicate Covers(count: int, instructions: seq<Instruction>, assertions: seq<Assertion>, hertz: nat) {
    && (forall i :: i in instructions ==> i.tick + hertz * SETTLING_SECONDS < count)
    && (forall a :: a in assertions ==> a.check.LastTick() + hertz * SETTLING_SECONDS < count)
  }

  /** Whether `t` is a tick the count has to reach, or the default zero of an empty test. */
  ghost predicate Relevant(t: int, instructions: seq<Instruction>, assertions: seq<Assertion>) {
    || (t == 0 && instructions == [])
    || (exists i :: i in instructions && i.tick == t)
    || (exists a :: a in assertions && a.check.LastTick() == t)
  }

  /** `_expected_tick_count`: every relevant tick plus the settling second, and not one tick more. */
  method ExpectedTickCount(instructions: seq<Instruction>, assertions: seq<Assertion>, hertz: nat) returns (count: int)
    ensures Covers(count, instructions, assertions, hertz)
    ensures Relevant(count - 1 - hertz * SETTLING_SECONDS, instructions, assertions)
    ensures instructions == [] ==> count >= hertz * SETTLING_SECONDS + 1
  {
    var latest := 0;
    if instructions != [] {
      latest := instructions[0].tick;
    }
    var k := 0;
    while k < |instructions|
      invariant 0 <= k <= |instructions|
      invariant forall i :: i in instructions[..k] ==> i.tick <= latest
      invariant if instructions == [] then latest == 0 else exists i :: i in instructions && i.tick == latest
    {
      assert instructions[..k + 1] == instructions[..k] + [instructions[k]];
      if latest < instructions[k].tick {
        latest := instructions[k].tick;
      }
      k := k + 1;
    }
    assert instructions[..k] == instructions;
    k := 0;
    while k < |assertions|
      invariant 0 <= k <= |assertions|
      invariant forall i :: i in instructions ==> i.tick <= latest
      invariant forall a :: a in assertions[..k] ==> a.check.LastTick() <= latest
      invariant Relevant(latest, instructions, assertions)
      invariant instructions == [] ==> latest >= 0
    {
      assert assertions[..k + 1] == assertions[..k] + [assertions[k]];
      if latest < assertions[k].check.LastTick() {
        latest := assertions[k].check.LastTick();
      }
      k := k + 1;
    }
    assert assertions[..k] == assertions;
    count := latest + hertz * SETTLING_SECONDS + 1;
  }

  /** Those two facts determine the count, so the method computes one definite number. */
  lemma ExpectedTickCountIsUnique(a: int, b: int, instructions: seq<Instruction>, assertions: seq<Assertion>,
      hertz: nat)
    requires Covers(a, instructions, assertions, hertz) && Covers(b, instructions, assertions, hertz)
    requires Relevant(a - 1 - hertz * SETTLING_SECONDS, instructions, assertions)
    requires Relevant(b - 1 - hertz * SETTLING_SECONDS, instructions, assertions)
    requires instructions == [] ==> a >= hertz * SETTLING_SECONDS + 1 && b >= hertz * SETTLING_SECONDS + 1
    ensures a == b
  {
  }

  // ---------- Compilation ----------

  /** What `compile_test` promises about its outcome, error cases included. */
  ghost predicate Compiles(d: TestDefinition, r: Result<CompiledTest, CompileError>) {
    if !ChannelsValid(d.channels) then r == Failure(InvalidChannel)
    else if InstructionFaults(d).Some? then r == Failure(InstructionFaults(d).value)
    else if AssertionFaults(d).Some? then r == Failure(AssertionFaults(d).value)
    else exists count :: CompilesTo(d, count, r)
  }

  ghost predicate CompilesTo(d: TestDefinition, count: int, r: Result<CompiledTest, CompileError>) {
    var hertz := Hertz(d.frequency);
    && Covers(count, d.instructions, d.assertions, hertz)
    && Relevant(count - 1 - hertz * SETTLING_SECONDS, d.instructions, d.assertions)
    && (d.instructions == [] ==> count >= hertz * SETTLING_SECONDS + 1)
    && r == if count >= MAX_EXPECTED_TICK_COUNT_EXCLUSIVE then Failure(TooManyTicks)
            else Success(CompiledTest(d.testId, hertz, count, d.startMode, d.channels, Sort(d.instructions),
              d.assertions))
  }

  method CompileTest(d: TestDefinition) returns (r: Result<CompiledTest, CompileError>)
    ensures Compiles(d, r)
  {
    if !ChannelsValid(d.channels) {
      return Failure(InvalidChannel);
    }
    var fault := ValidateInstructions(d);
    if fault.Some? {
      return Failure(fault.value);
    }
    fault := ValidateAssertions(d);
    if fault.Some? {
      return Failure(fault.value);
    }
    var hertz := Hertz(d.frequency);
    var ordered := Sort(d.instructions);
    var count := ExpectedTickCount(ordered, d.assertions, hertz);
    SortIsSortedPermutation(d.instructions);
    SameMembers(d.instructions, ordered);
    if count >= MAX_EXPECTED_TICK_COUNT_EXCLUSIVE {
      r := Failure(TooManyTicks);
    } else {
      r := Success(CompiledTest(d.testId, hertz, count, d.startMode, d.channels, ordered, d.assertions));
    }
    assert CompilesTo(d, count, r);
  }

  lemma SameMembers(a: seq<Instruction>, b: seq<Instruction>)
    requires multiset(a) == multiset(b)
    ensures forall x :: x in a <==> x in b
    ensures a == [] <==> b == []
  {
    forall x
      ensures x in a <==> x in b
    {
      assert x in a <==> x in multiset(a);
      assert x in b <==> x in multiset(b);
    }
    assert |multiset(a)| == |a| && |multiset(b)| == |b|;
  }

  /** Everything later stages rely on in a compiled test. */
  ghost predicate WellCompiled(d: TestDefinition, t: CompiledTest) {
    && AscendingIds(d.instructions)
    && (forall i :: i in d.instructions ==> i.tick >= 0 && i.channel.Valid() && Configured(i.channel, d.channels))
    && t.instructions == Sort(d.instructions)
    && t.configurations == d.channels && ChannelsValid(d.channels)
    && t.assertions == d.assertions && t.startMode == d.startMode
    && t.hertz == Hertz(d.frequency)
    && 0 < t.expectedTickCount < MAX_EXPECTED_TICK_COUNT_EXCLUSIVE
    && (forall i :: i in t.instructions ==> i.tick < t.expectedTickCount)
    && (forall a :: a in t.assertions ==>
          0 <= a.check.FirstTick() <= a.check.LastTick() < t.expectedTickCount && a.channel.Valid())
  }

  lemma NoInstructionFault(d: TestDefinition)
    requires InstructionFaults(d).None?
    ensures AscendingIds(d.instructions)
    ensures forall i :: i in d.instructions ==> i.tick >= 0 && i.channel.Valid() && Configured(i.channel, d.channels)
  {
    var fault := (i, k) => InstructionFault(i, k, d.channels);
    forall k | 0 <= k < |d.instructions|
      ensures InstructionFault(d.instructions[k], k, d.channels).None?
    {
      assert fault(d.instructions[k], k).None?;
    }
  }

  lemma NoAssertionFault(d: TestDefinition)
    requires AssertionFaults(d).None?
    ensures forall a :: a in d.assertions ==> 0 <= a.check.FirstTick() <= a.check.LastTick() && a.channel.Valid()
  {
    var fault := (a, k) => AssertionFault(a, k, d.channels);
    forall k | 0 <= k < |d.assertions|
      ensures AssertionFault(d.assertions[k], k, d.channels).None?
    {
      assert fault(d.assertions[k], k).None?;
    }
  }

  lemma CoveredCountIsPositive(d: TestDefinition, count: int, r: Result<CompiledTest, CompileError>)
    requires CompilesTo(d, count, r)
    requires forall i :: i in d.instructions ==> i.tick >= 0
    ensures count > 0
  {
    if d.instructions != [] {
      assert d.instructions[0] in d.instructions;
    }
  }

  /** A successful compilation runs long enough for every stimulus and for all the evidence every assertion asks for. */
  lemma CompilationCoversEveryAssertion(d: TestDefinition, r: Result<CompiledTest, CompileError>)
    requires Compiles(d, r) && r.Success?
    ensures WellCompiled(d, r.value)
  {
    assert InstructionFaults(d).None? && AssertionFaults(d).None? && ChannelsValid(d.channels);
    var count :| CompilesTo(d, count, r);
    NoInstructionFault(d);
    NoAssertionFault(d);
    CoveredCountIsPositive(d, count, r);
    SortIsSortedPermutation(d.instructions);
    SameMembers(d.instructions, Sort(d.instructions));
  }

  // ---------- Compilation in terms of the definition alone ----------

  /** The kinds of channel that have a static configuration record of their own. */
  predicate HasItsRecord(c: Channel, channels: map<Channel, Parameters>) {
    && c in channels
    && (c.kind == DigitalOutput <==> channels[c].DigitalOutputParameters?)
    && (c.kind == AnalogueOutput <==> channels[c].AnalogueOutputParameters?)
    && (c.kind == PwmOutput <==> channels[c].PwmOutputParameters?)
  }

  /** Channels by their size: ten digital inputs and outputs, six analogue outputs, and two of everything else. */
  predicate Exists(c: Channel) {
    && 0 <= c.index
    && c.index < if c.kind in {DigitalInput, DigitalOutput} then 10 else if c.kind == AnalogueOutput then 6 else 2
  }

  /** Every channel exists, identifiers count from zero, channels are configured, and ticks make sense. */
  ghost predicate WellFormed(d: TestDefinition) {
    && (forall c :: c in d.channels ==> Exists(c))
    && (forall k :: 0 <= k < |d.instructions| ==>
          var i := d.instructions[k];
          i.id == k && Exists(i.channel) && HasItsRecord(i.channel, d.channels) && i.tick >= 0)
    && (forall k :: 0 <= k < |d.assertions| ==>
          var a := d.assertions[k];
          && a.id == k && Exists(a.channel) && HasItsRecord(a.channel, d.channels)
          && 0 <= a.check.FirstTick() <= a.check.LastTick())
  }

  /** The complaint about one instruction or assertion, in the order of the checks. */
  lemma FaultsMean(i: Instruction, a: Assertion, k: int, channels: map<Channel, Parameters>)
    ensures InstructionFault(i, k, channels) == (
      if i.id != k then Some(NonSequentialId)
      else if !Exists(i.channel) then Some(InvalidChannel)
      else if !HasItsRecord(i.channel, channels) then Some(UnconfiguredChannel)
      else if i.tick < 0 then Some(InvalidTick) else None)
    ensures AssertionFault(a, k, channels) == (
      if a.id != k then Some(NonSequentialId)
      else if !Exists(a.channel) then Some(InvalidChannel)
      else if !HasItsRecord(a.channel, channels) then Some(UnconfiguredChannel)
      else if !(0 <= a.check.FirstTick() <= a.check.LastTick()) then Some(InvalidTick) else None)
  {
  }

  lemma InstructionsAreFine(d: TestDefinition)
    ensures InstructionFaults(d).None? <==>
      forall k :: 0 <= k < |d.instructions| ==>
        var i := d.instructions[k];
        i.id == k && Exists(i.channel) && HasItsRecord(i.channel, d.channels) && i.tick >= 0
  {
    var fault := (i, k) => InstructionFault(i, k, d.channels);
    forall k | 0 <= k < |d.instructions|
      ensures fault(d.instructions[k], k).None? <==>
        var i := d.instructions[k];
        i.id == k && Exists(i.channel) && HasItsRecord(i.channel, d.channels) && i.tick >= 0
    {
    }
  }

  lemma AssertionsAreFine(d: TestDefinition)
    ensures AssertionFaults(d).None? <==>
      forall k :: 0 <= k < |d.assertions| ==>
        var a := d.assertions[k];
        && a.id == k && Exists(a.channel) && HasItsRecord(a.channel, d.channels)
        && 0 <= a.check.FirstTick() <= a.check.LastTick()
  {
    var fault := (a, k) => AssertionFault(a, k, d.channels);
    forall k | 0 <= k < |d.assertions|
      ensures fault(d.assertions[k], k).None? <==>
        var a := d.assertions[k];
        && a.id == k && Exists(a.channel) && HasItsRecord(a.channel, d.channels)
        && 0 <= a.check.FirstTick() <= a.check.LastTick()
    {
    }
  }

  /** How long a compiled test runs: every stimulus and assertion, and one second of settling; not a tick longer. */
  ghost predicate RunsFor(count: int, d: TestDefinition, hertz: int) {
    && (forall i :: i in d.instructions ==> i.tick + hertz + 1 <= count)
    && (forall a :: a in d.assertions ==> a.check.LastTick() + hertz + 1 <= count)
    && ((d.instructions == [] && count == hertz + 1)
        || (exists i :: i in d.instructions && i.tick + hertz + 1 == count)
        || exists a :: a in d.assertions && a.check.LastTick() + hertz + 1 == count)
  }

  /** The definition fits the protocol's limit of fewer than a million ticks. */
  ghost predicate FitsTheLimit(d: TestDefinition, hertz: int) {
    && (forall i :: i in d.instructions ==> i.tick + hertz + 1 < 1_000_000)
    && (forall a :: a in d.assertions ==> a.check.LastTick() + hertz + 1 < 1_000_000)
  }

  lemma CountIsMeant(d: TestDefinition, count: int, r: Result<CompiledTest, CompileError>)
    requires CompilesTo(d, count, r)
    ensures RunsFor(count, d, Hertz(d.frequency))
    ensures count < 1_000_000 <==> FitsTheLimit(d, Hertz(d.frequency))
    ensures r.Success? <==> count < 1_000_000
  {
  }

  /**
   Compilation, said of the definition: it succeeds exactly when the definition is well formed and, at the frequency of
   its mode, fits the limit. The compiled test then runs for as long as it must.
   */
  lemma CompilesExactlyWhen(d: TestDefinition, r: Result<CompiledTest, CompileError>)
    requires Compiles(d, r)
    ensures var hertz := match d.frequency case Hz100 => 100 case Hz1k => 1_000 case Hz10k => 10_000;
      && (r.Success? <==> WellFormed(d) && FitsTheLimit(d, hertz))
      && (r.Success? ==>
            && r.value.hertz == hertz && r.value.testId == d.testId && r.value.startMode == d.startMode
            && r.value.configurations == d.channels && r.value.assertions == d.assertions
            && RunsFor(r.value.expectedTickCount, d, hertz))
      && (r == Failure(TooManyTicks) <==> WellFormed(d) && !FitsTheLimit(d, hertz))
  {
    InstructionsAreFine(d);
    AssertionsAreFine(d);
    assert ChannelsValid(d.channels) <==> forall c :: c in d.channels ==> Exists(c);
    if WellFormed(d) {
      var count :| CompilesTo(d, count, r);
      CountIsMeant(d, count, r);
    } else {
      NotTheLimit(d, r);
    }
  }

  /** The faults of single items are never the tick limit. */
  lemma NotTheLimit(d: TestDefinition, r: Result<CompiledTest, CompileError>)
    requires Compiles(d, r)
    requires !ChannelsValid(d.channels) || InstructionFaults(d).Some? || AssertionFaults(d).Some?
    ensures r.Failure? && r.error != TooManyTicks
  {
  }
}
