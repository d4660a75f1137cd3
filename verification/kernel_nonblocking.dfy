/** A run on which a non-blocking send blocks although nobody comes in between. */
module KernelNonBlocking {
  import opened Seqs
  import opened Constants
  import opened Timers
  import opened Payloads
  import opened KernelModel
  import opened KernelRun
  import opened KernelInv
  import opened KernelCalls
  import opened KernelExamples
  import opened KernelTheorems
  import RT = KernelRoundTrip

  const BOTH: map<Role, Block> := map[Writer := 0, NonBlock := 1]

  const ASKING_PROC := PARENT_1.(ret := 0, lastFd := 1, fds := map[0 := Handle(7, map[])],
                                 pc := Opening(0, {Writer, NonBlock}))
  const ASKING := SPAWNED.(procs := map[0 := ASKING_PROC, 1 := CHILD])
  const GIVEN_PROC := ASKING_PROC.(fds := map[0 := Handle(7, BOTH)], pc := User)
  const GIVEN_QUEUE := NEW_QUEUE.(writers := [0], nonBlock := [1])
  const GIVEN := ASKING.(procs := map[0 := GIVEN_PROC, 1 := CHILD], queues := map[7 := GIVEN_QUEUE],
                         users := map[0 := QueueUser(0, Running, 0, 7, Writer),
                                      1 := QueueUser(0, Running, 0, 7, NonBlock)])
  const LOWERED := GIVEN.(queues := map[7 := GIVEN_QUEUE.(maxMessages := -1)])
  const TRYING := LOWERED.(procs := map[0 := GIVEN_PROC.(pc := Calling(Writer, 0, First, MESSAGE_0, 128)), 1 := CHILD])

  lemma AskingStep()
    ensures Enabled(SPAWNED, OpenStart(7, {Writer, NonBlock}))
            && Apply(SPAWNED, OpenStart(7, {Writer, NonBlock})) == ASKING
  {
    var t := Apply(SPAWNED, OpenStart(7, {Writer, NonBlock}));
    assert t.procs[0].fds == map[0 := Handle(7, map[])];
    assert t.procs == ASKING.procs;
  }

  /** The queue is made, and the process is back in its own code. */
  const MADE := ASKING.(procs := map[0 := ASKING_PROC.(pc := User), 1 := CHILD], queues := map[7 := NEW_QUEUE])

  lemma Registers()
    ensures RegisterAll(MADE, 0, ALL_ROLES, BOTH.Keys, BOTH) == GIVEN
  {
    var pr := ASKING_PROC.(pc := User, fds := map[]);
    RT.AllSections(MADE, pr, 0, 7, BOTH);
    RT.NothingHeld(MADE, pr, 0, 7);
    assert pr.fds[0 := Handle(7, map[])] == map[0 := Handle(7, map[])];
    assert MADE.procs[0 := ASKING_PROC.(pc := User)] == MADE.procs;
    GivenForm(pr);
  }

  lemma GivenForm(pr: Proc)
    requires pr == ASKING_PROC.(pc := User, fds := map[])
    ensures RT.Apart(BOTH) && RT.Holding(MADE, pr.(ret := 0), 0, 7, BOTH) == GIVEN
  {
    var h := RT.Holding(MADE, pr.(ret := 0), 0, 7, BOTH);
    assert pr.fds[0 := Handle(7, BOTH)] == map[0 := Handle(7, BOTH)];
    assert h.procs == GIVEN.procs;
    GivenQueue();
    GivenUsers();
  }

  lemma GivenQueue()
    ensures map[7 := NEW_QUEUE][7 := RT.Joined(NEW_QUEUE, BOTH)] == GIVEN.queues
  {
    assert RT.Entry(BOTH, Reader) == [] && RT.Entry(BOTH, Writer) == [0] && RT.Entry(BOTH, NonBlock) == [1];
    assert [] + [0] == [0] && [] + [1] == [1];
    assert RT.Joined(NEW_QUEUE, BOTH) == GIVEN_QUEUE;
  }

  lemma BothApart()
    ensures RT.Apart(BOTH) && BOTH.Keys == {Writer, NonBlock} && BOTH[Writer] == 0 && BOTH[NonBlock] == 1
  {
  }

  lemma GivenUsers()
    ensures RT.Apart(BOTH) && map[] + RT.Held(0, 0, 7, BOTH) == GIVEN.users
  {
    BothApart();
    var h := RT.Held(0, 0, 7, BOTH);
    assert h.Keys == {0, 1};
    assert map[] + h == h;
  }

  lemma MadeFrom(s: State)
    requires s == ASKING
    ensures Trap(s, OtherCall) == s && SetSelf(s, Self(s).(pc := User)).(queues := s.queues[7 := NEW_QUEUE]) == MADE
  {
    assert Trap(s, OtherCall).procs == s.procs;
  }

  lemma OpensBoth(s: State)
    requires s == ASKING
    ensures OpenQueue(s, BOTH) == GIVEN
  {
    MadeFrom(s);
    Registers();
  }

  lemma GivenStep()
    ensures Enabled(ASKING, OpenFinish(BOTH)) && Apply(ASKING, OpenFinish(BOTH)) == GIVEN
  {
    assert BOTH.Keys == {Writer, NonBlock};
    MadeFrom(ASKING);
    OpensBoth(ASKING);
  }

  lemma LoweredStep()
    ensures Enabled(GIVEN, MaxStep(0, -1)) && Apply(GIVEN, MaxStep(0, -1)) == LOWERED
  {
    assert Apply(GIVEN, MaxStep(0, -1)).queues == LOWERED.queues;
  }

  lemma LoweredReachable()
    ensures Reachable(LOWERED)
  {
    BootReachable();
    SpawnedStep();
    Extend(BOOT, SpawnChild, SPAWNED);
    AskingStep();
    Extend(SPAWNED, OpenStart(7, {Writer, NonBlock}), ASKING);
    GivenStep();
    Extend(ASKING, OpenFinish(BOTH), GIVEN);
    LoweredStep();
    Extend(GIVEN, MaxStep(0, -1), LOWERED);
  }

  lemma TryingStep()
    ensures Enabled(LOWERED, CallStart(Writer, 0, MESSAGE_0, 128))
            && Apply(LOWERED, CallStart(Writer, 0, MESSAGE_0, 128)) == TRYING
  {
    assert Apply(LOWERED, CallStart(Writer, 0, MESSAGE_0, 128)).procs == TRYING.procs;
  }

  lemma TryingGoesOn()
    ensures Enabled(TRYING, TransferStep(None))
  {
    PayloadMeaning(MESSAGE_0, MAX_MESSAGE_SIZE);
  }

  /** A queue is opened for non-blocking sends and its limit is lowered below the number of its
      messages; a send passes the check for a full queue and is parked by its own transfer. */
  lemma NonBlockingSendBlocks()
    ensures Reachable(LOWERED) && 0 in Self(LOWERED).fds && NonBlock in Self(LOWERED).fds[0].slots
    ensures Enabled(LOWERED, CallStart(Writer, 0, MESSAGE_0, 128)) && Enabled(TRYING, TransferStep(None))
    ensures Apply(LOWERED, CallStart(Writer, 0, MESSAGE_0, 128)) == TRYING
    ensures 0 in Apply(TRYING, TransferStep(None)).waiting
  {
    LoweredReachable();
    ReachableInv(LOWERED);
    TryingStep();
    TryingGoesOn();
    NonBlockingBlocksIff(LOWERED, Writer, 0, MESSAGE_0, 128, None);
  }
}
