/** A run on which a message is longer than the buffer that a reader was admitted with. */
module KernelOverrun {
  import opened Seqs
  import opened Constants
  import opened Timers
  import opened Payloads
  import opened KernelModel
  import opened KernelRun
  import opened KernelSizes
  import opened KernelExamples

  const LONG: Bytes := seq(MAX_MESSAGE_SIZE, _ => 1)

  const SMALL_QUEUE := READ_QUEUE.(msgSize := 8)
  const SMALL := READ_OPENED.(queues := map[7 := SMALL_QUEUE])
  const ADMITTED_PROC := OPENED_PROC.(pc := Calling(Reader, 0, First, [], 8))
  const ADMITTED := SMALL.(procs := map[0 := ADMITTED_PROC, 1 := CHILD])

  const LEFT_PROC := ADMITTED_PROC.(status := Ready)
  const LEFT := ADMITTED.(time := 1, running := Some(1), ready := [0],
                          procs := map[0 := LEFT_PROC, 1 := CHILD.(status := Running)])
  const JOINING_PROC := CHILD.(status := Running, call := OtherCall, lastFd := 1, fds := map[0 := Handle(7, map[])],
                               pc := Opening(0, {Writer}))
  const JOINING := LEFT.(procs := map[0 := LEFT_PROC, 1 := JOINING_PROC])
  const JOINED_PROC := JOINING_PROC.(fds := map[0 := Handle(7, map[Writer := 1])], pc := User)
  const JOINED := LEFT.(procs := map[0 := LEFT_PROC, 1 := JOINED_PROC],
                        queues := map[7 := SMALL_QUEUE.(writers := [1])],
                        users := map[0 := QueueUser(0, Running, 0, 7, Reader),
                                     1 := QueueUser(1, Running, 0, 7, Writer)])
  const WIDE_QUEUE := SMALL_QUEUE.(writers := [1], msgSize := 128)
  const WIDE := JOINED.(queues := map[7 := WIDE_QUEUE])
  const OFFERED_PROC := JOINED_PROC.(pc := Calling(Writer, 0, First, LONG, 128))
  const OFFERED := WIDE.(procs := map[0 := LEFT_PROC, 1 := OFFERED_PROC])
  const FILLED_QUEUE := WIDE_QUEUE.(messages := [Message(LONG, 128)], sent := [LONG])
  const SENT_PROC := OFFERED_PROC.(pc := Calling(Writer, 0, Wake, LONG, 128), ret := 0)
  const FILLED := OFFERED.(procs := map[0 := LEFT_PROC, 1 := SENT_PROC], queues := map[7 := FILLED_QUEUE])

  lemma SmallStep()
    ensures Enabled(READ_OPENED, SizeStep(0, 8)) && Apply(READ_OPENED, SizeStep(0, 8)) == SMALL
  {
    assert Apply(READ_OPENED, SizeStep(0, 8)).queues == SMALL.queues;
  }

  lemma AdmittedStep()
    ensures Enabled(SMALL, CallStart(Reader, 0, [], 8)) && Apply(SMALL, CallStart(Reader, 0, [], 8)) == ADMITTED
  {
    assert Apply(SMALL, CallStart(Reader, 0, [], 8)).procs == ADMITTED.procs;
  }

  lemma LeftStep()
    ensures Enabled(ADMITTED, Tick) && Apply(ADMITTED, Tick) == LEFT
  {
    var r := Later(ADMITTED);
    NobodyDue(r);
    RotateTo(r, 1);
    assert Rotated(r, 1).procs == LEFT.procs;
  }

  lemma JoiningStep()
    ensures Enabled(LEFT, OpenStart(7, {Writer})) && Apply(LEFT, OpenStart(7, {Writer})) == JOINING
  {
    var t := Apply(LEFT, OpenStart(7, {Writer}));
    assert t.procs[1].fds == map[0 := Handle(7, map[])];
    assert t.procs == JOINING.procs;
  }

  lemma JoinedStep()
    ensures Enabled(JOINING, OpenFinish(map[Writer := 1])) && Apply(JOINING, OpenFinish(map[Writer := 1])) == JOINED
  {
    FinishOne(JOINING, 0, 7, Writer, 1);
    JoinedForm();
  }

  lemma JoinedForm()
    ensures Alive(Trap(JOINING, OtherCall)) && Finished(Trap(JOINING, OtherCall), 0, 7, Writer, 1) == JOINED
  {
    var t := Finished(Trap(JOINING, OtherCall), 0, 7, Writer, 1);
    assert [] + [1] == [1];
    assert t.procs == JOINED.procs && t.queues == JOINED.queues && t.users == JOINED.users;
  }

  lemma WideStep()
    ensures Enabled(JOINED, SizeStep(0, 128)) && Apply(JOINED, SizeStep(0, 128)) == WIDE
  {
    assert Apply(JOINED, SizeStep(0, 128)).queues == WIDE.queues;
  }

  lemma OfferedStep()
    ensures Enabled(WIDE, CallStart(Writer, 0, LONG, 128)) && Apply(WIDE, CallStart(Writer, 0, LONG, 128)) == OFFERED
  {
    assert Apply(WIDE, CallStart(Writer, 0, LONG, 128)).procs == OFFERED.procs;
  }

  lemma LongIsWhole()
    ensures |LONG| == 128 && Payload(LONG, 128) == LONG && Overwritten(LONG, LONG) == LONG
  {
    PayloadMeaning(LONG, 128);
  }

  lemma SendsLong(r: State)
    requires r == OFFERED
    ensures Alive(r) && InCall(r, 1) && |Payload(Self(r).pc.msg, r.queues[7].msgSize)| <= MAX_MESSAGE_SIZE
    ensures Transfer(r, Some(LONG)) == FILLED
  {
    LongIsWhole();
    Sends(r, LONG);
    FilledQueue();
    assert r.procs[1 := SENT_PROC] == FILLED.procs;
  }

  lemma FilledStep()
    ensures Enabled(OFFERED, TransferStep(Some(LONG))) && Apply(OFFERED, TransferStep(Some(LONG))) == FILLED
  {
    var r := Trap(OFFERED, OtherCall);
    assert r.procs == OFFERED.procs;
    SendsLong(r);
  }

  lemma FilledQueue()
    ensures |Payload(LONG, 128)| <= |LONG| && Exchange(WIDE_QUEUE, Writer, LONG, LONG) == FILLED_QUEUE
    ensures OFFERED.queues[7 := FILLED_QUEUE] == FILLED.queues
  {
    LongIsWhole();
    assert [] + [LONG] == [LONG] && [] + [Message(LONG, 128)] == [Message(LONG, 128)];
  }

  /** A transfer of a sender that finds room and gets a block. */
  lemma Sends(s: State, block: Bytes)
    requires Alive(s) && InCall(s, s.running.value) && Self(s).pc.role == Writer && |block| == MAX_MESSAGE_SIZE
    requires Room(s.queues[CallQueue(s, s.running.value)], Writer) > 0
    requires |Payload(Self(s).pc.msg, s.queues[CallQueue(s, s.running.value)].msgSize)| <= MAX_MESSAGE_SIZE
    ensures var q := CallQueue(s, s.running.value);
            Transfer(s, Some(block)) ==
              s.(queues := s.queues[q := Exchange(s.queues[q], Writer, Self(s).pc.msg, block)],
                 procs := s.procs[s.running.value := Self(s).(ret := 0, pc := Self(s).pc.(phase := Wake))])
  {
    var p, pr := s.running.value, Self(s).(ret := 0);
    Overwrites(s.procs, p, pr, pr, pr.(pc := pr.pc.(phase := Wake)));
  }

  lemma AdmittedReachable()
    ensures Reachable(ADMITTED)
  {
    ReadOpenedReachable();
    SmallStep();
    Extend(READ_OPENED, SizeStep(0, 8), SMALL);
    AdmittedStep();
    Extend(SMALL, CallStart(Reader, 0, [], 8), ADMITTED);
  }

  lemma JoinedReachable()
    ensures Reachable(JOINED)
  {
    AdmittedReachable();
    LeftStep();
    Extend(ADMITTED, Tick, LEFT);
    JoiningStep();
    Extend(LEFT, OpenStart(7, {Writer}), JOINING);
    JoinedStep();
    Extend(JOINING, OpenFinish(map[Writer := 1]), JOINED);
  }

  lemma FilledReachable()
    ensures Reachable(FILLED)
  {
    JoinedReachable();
    WideStep();
    Extend(JOINED, SizeStep(0, 128), WIDE);
    OfferedStep();
    Extend(WIDE, CallStart(Writer, 0, LONG, 128), OFFERED);
    FilledStep();
    Extend(OFFERED, TransferStep(Some(LONG)), FILLED);
  }

  lemma WidensTooFar()
    ensures !SizeOk(JOINED, SizeStep(0, 128))
  {
    assert JOINED.procs[0] == LEFT_PROC && !Holds(LEFT_PROC, 7, 128);
  }

  /** A reader is admitted with a buffer of 8 bytes and is interrupted; another process raises the
      message size and sends 128 bytes. They are what the reader copies when it goes on. */
  lemma MessageOverrunsBuffer()
    ensures Reachable(JOINED) && !SizeOk(JOINED, SizeStep(0, 128)) && Reachable(FILLED)
    ensures InCall(FILLED, 0) && CallQueue(FILLED, 0) == 7 && Reading(FILLED.procs[0]) && FILLED.procs[0].pc.size == 8
    ensures 7 in FILLED.queues && FILLED.queues[7].messages == [Message(LONG, 128)] && |Payload(LONG, 128)| == 128
  {
    JoinedReachable();
    FilledReachable();
    WidensTooFar();
    LongIsWhole();
  }
}
