/** Runs as sequences of scenes: what the hosts from 1 on are, whom each has heard acknowledge
    entries since it last became leader, and what is under way. */
module Scenes {
  import opened Protocol
  import opened LogSpec
  import opened NamespaceSpec
  import opened NodeSpec
  import opened ClusterSteps
  import opened Traces
  import opened Exchanges

  datatype Scene = Scene(nodes: seq<Node>, lately: seq<seq<set<Id>>>, net: map<(Id, Id), Flight>)

  function Under(s: Scene, i: Id, j: Id): Flight {
    if (i, j) in s.net then s.net[(i, j)] else Idle
  }

  ghost predicate Shows(c: Cluster, s: Scene) {
    && Wf(c) && c.ids == Hosts(|s.nodes|) && |s.lately| == |s.nodes|
    && (forall k :: 1 <= k <= |s.nodes| ==>
          NodeAt(c, k) == s.nodes[k - 1] && RecentAt(c, k) == OnRecord(s.lately[k - 1]))
    && (forall x, y :: FlightAt(c, x, y) == Under(s, x, y))
  }

  ghost predicate Reaches(tr: Trace, off: Option<Guard>, s: Scene) {
    Ok(tr, off) && Shows(tr.end, s)
  }

  /** Two hosts with nothing under way from the first to the second. */
  predicate Two(s: Scene, i: Id, j: Id) {
    1 <= i <= |s.nodes| && 1 <= j <= |s.nodes| && i != j && Under(s, i, j) == Idle
  }

  function Others(s: Scene, i: Id): set<Id> {
    Hosts(|s.nodes|) - {i}
  }

  lemma Seen(c: Cluster, s: Scene, i: Id)
    requires Shows(c, s) && 1 <= i <= |s.nodes|
    ensures i in c.ids && Remotes(c, i) == Others(s, i) && Quorum(Others(s, i)) == |s.nodes| / 2 + 1
    ensures Wf(c) && NodeAt(c, i) == s.nodes[i - 1]
  {
    hide Quorum;
    OfHosts(c, |s.nodes|, i);
  }

  predicate Hosted(s: Scene, i: Id) {
    1 <= i <= |s.nodes| == |s.lately|
  }

  lemma SeenPair(c: Cluster, s: Scene, i: Id, j: Id)
    requires Shows(c, s) && Hosted(s, i) && Hosted(s, j) && i != j
    ensures Wf(c) && Pair(c, i, j) && FlightAt(c, i, j) == Under(s, i, j)
    ensures NodeAt(c, i) == s.nodes[i - 1] && NodeAt(c, j) == s.nodes[j - 1] && Remotes(c, i) == Others(s, i)
  {
    hide RecentAt, OnRecord;
  }

  lemma SeenRecent(c: Cluster, s: Scene, i: Id)
    requires Shows(c, s) && Hosted(s, i)
    ensures RecentAt(c, i) == OnRecord(s.lately[i - 1])
  {
    hide RecentAt, OnRecord, Wf;
  }

  lemma SeenNode(tr: Trace, off: Option<Guard>, s: Scene, i: Id)
    requires Reaches(tr, off, s) && 1 <= i <= |s.nodes|
    ensures Ok(tr, off) && NodeAt(tr.end, i) == s.nodes[i - 1] && Quorum(Remotes(tr.end, i)) == |s.nodes| / 2 + 1
    ensures |s.lately| == |s.nodes| && RecentAt(tr.end, i) == OnRecord(s.lately[i - 1])
  {
    hide Ok, Wf, Quorum, RecentAt, OnRecord;
    Seen(tr.end, s, i);
  }

  /** After a step of the hosts `who`, which are now what `s'` says; nobody wakes up. */
  lemma ShowsNext(c: Cluster, c': Cluster, s: Scene, s': Scene, who: set<Id>)
    requires Shows(c, s) && Changes(c, c', who) && |s'.nodes| == |s.nodes| && |s'.lately| == |s.lately|
    requires s'.net == s.net
    requires forall k :: 1 <= k <= |s.nodes| ==>
               if k in who then NodeAt(c', k) == s'.nodes[k - 1] && RecentAt(c', k) == OnRecord(s'.lately[k - 1])
               else s'.nodes[k - 1] == s.nodes[k - 1] && s'.lately[k - 1] == s.lately[k - 1]
    ensures Shows(c', s') && c'.replicas == c.replicas
  {
    hide RecentAt, OnRecord, Wf;
    forall k | 1 <= k <= |s'.nodes|
      ensures NodeAt(c', k) == s'.nodes[k - 1] && RecentAt(c', k) == OnRecord(s'.lately[k - 1])
    {
      if k !in who {
        assert NodeAt(c', k) == NodeAt(c, k);
      }
    }
  }

  /** The same for one host, and for two, whose recent acknowledgements stay. */
  lemma ShowsOne(c: Cluster, c': Cluster, s: Scene, s': Scene, i: Id)
    requires Shows(c, s) && Hosted(s, i) && Changes(c, c', {i}) && s' == s.(nodes := s.nodes[i - 1 := NodeAt(c', i)])
    requires RecentAt(c', i) == RecentAt(c, i)
    ensures Shows(c', s') && c'.replicas == c.replicas
  {
    hide RecentAt, OnRecord, Wf, Changes;
    ShowsNext(c, c', s, s', {i});
  }

  lemma ShowsBoth(c: Cluster, c': Cluster, s: Scene, s': Scene, i: Id, j: Id)
    requires Shows(c, s) && Hosted(s, i) && Hosted(s, j) && i != j && Changes(c, c', {i, j})
    requires s' == s.(nodes := s.nodes[i - 1 := NodeAt(c', i)][j - 1 := NodeAt(c', j)])
    requires RecentAt(c', i) == RecentAt(c, i) && RecentAt(c', j) == RecentAt(c, j)
    ensures Shows(c', s') && c'.replicas == c.replicas
  {
    hide RecentAt, OnRecord, Wf, Changes;
    ShowsNext(c, c', s, s', {i, j});
  }

  predicate Fresh(s: Scene) {
    && s.nodes != [] && |s.lately| == |s.nodes| && s.net == map[]
    && forall k :: 0 <= k < |s.nodes| ==> s.nodes[k] == FRESH && s.lately[k] == []
  }

  lemma Opening(off: Option<Guard>, s: Scene) returns (tr: Trace)
    requires Fresh(s)
    ensures Reaches(tr, off, s) && tr.acts == []
    ensures forall k :: 1 <= k <= |s.nodes| ==> k in tr.end.replicas && tr.end.replicas[k] == Replica(0, EMPTY)
  {
    hide Wf, Ok;
    tr := Begin(|s.nodes|, off);
    assert OnRecord([]) == map[];
  }

  // ---------------------------------------------------------------- moves

  /** Single steps, and whole exchanges with what comes of them. */
  datatype Move =
    | Run(i: Id)
    | Serve(i: Id, op: MetaOp, value: string)
    | Win(i: Id, voters: seq<Id>)            // runs, and gets just enough votes
    | StepDown(i: Id, j: Id)                 // a leader meets a later term
    | Hear(i: Id, j: Id, lands: bool)        // a host of an earlier term hears of the leader
    | Miss(i: Id, j: Id)                     // a batch finds no place, and the leader backs off
    | Take(i: Id, j: Id, sets: seq<set<Id>>, // a batch is taken and acknowledged
           now: seq<set<Id>>, recent: seq<set<Id>>, commit: int)
    | Ask(i: Id, j: Id)
    | Grant(i: Id, j: Id)
    | Count(i: Id, j: Id)
    | Send(i: Id, j: Id)
    | Deliver(i: Id, j: Id)
    | Finish(i: Id, j: Id)

  /** Host `i` leads and has a batch for host `j`. */
  ghost predicate Leads(s: Scene, i: Id, j: Id) {
    && Two(s, i, j) && s.nodes[i - 1].role == Leader && j in s.nodes[i - 1].nextIndex
    && s.nodes[i - 1].nextIndex[j] >= 1 && Contiguous(s.nodes[i - 1].log)
  }

  function Before(s: Scene, i: Id, j: Id): int {
    if 1 <= i <= |s.nodes| && j in s.nodes[i - 1].nextIndex then s.nodes[i - 1].nextIndex[j] - 1 else 0
  }

  ghost predicate Can(s: Scene, m: Move, off: Option<Guard>) {
    && Hosted(s, m.i) && (m.Run? || m.Serve? || m.Win? || (Hosted(s, m.j) && m.i != m.j))
    && var n := s.nodes[m.i - 1];
       match m
       case Run(i) => n.role != Leader
       case Serve(i, op, value) =>
         n.role == Leader && n.leaderId != NO_LEADER && op in {Mkdir, Rmdir, Create, Delete} && ValidatePath(value)
       case Win(i, voters) => Electable(s, i, voters)
       case StepDown(i, j) => Leads(s, i, j) && s.nodes[j - 1].term > n.term
       case Hear(i, j, lands) =>
         && Leads(s, i, j) && s.nodes[j - 1].term < n.term && n.commit == 0 <= s.nodes[j - 1].commit
         && (if lands then Lands(s.nodes[j - 1].log, n.log, Before(s, i, j))
             else Misses(s.nodes[j - 1].log, n.log, Before(s, i, j)))
       case Miss(i, j) =>
         && Leads(s, i, j) && s.nodes[j - 1].term == n.term && n.commit == 0 <= s.nodes[j - 1].commit
         && Misses(s.nodes[j - 1].log, n.log, Before(s, i, j))
       case Take(i, j, sets, now, recent, commit) =>
         && Leads(s, i, j) && s.nodes[j - 1].term == n.term && n.commit == 0 <= s.nodes[j - 1].commit
         && Lands(s.nodes[j - 1].log, n.log, Before(s, i, j)) && n.pending == OnRecord(sets)
         && now == Adding(sets, j, Before(s, i, j), |n.log|)
         && recent == Adding(s.lately[i - 1], j, Before(s, i, j), |n.log|)
         && Settles(n, Before(s, i, j), now, recent, commit, |s.nodes| / 2 + 1, off)
       case Ask(i, j) => Under(s, i, j) == Idle && n.role == Candidate
       case Grant(i, j) => Under(s, i, j).VoteAsk?
       case Count(i, j) => Under(s, i, j).VoteAnswer? && (off == Some(Votes) || Under(s, i, j).vreq.term == n.term)
       case Send(i, j) => Under(s, i, j) == Idle && n.role == Leader && j in n.nextIndex
       case Deliver(i, j) =>
         Under(s, i, j).AppendAsk? && DeliverGuards(s.nodes[j - 1], Under(s, i, j).areq, Under(s, i, j).full, off)
       case Finish(i, j) =>
         && Under(s, i, j).AppendAnswer? && !Under(s, i, j).areply.success
         && (off == Some(Refusals) || Under(s, i, j).areq.term == n.term)
  }

  /** An election of host `i`, by hosts that would vote for it and are just enough. */
  ghost predicate Electable(s: Scene, i: Id, voters: seq<Id>)
    requires Hosted(s, i)
  {
    && voters != [] && |voters| == |s.nodes| / 2
    && s.nodes[i - 1].role != Leader && s.nodes[i - 1].term + 1 !in s.nodes[i - 1].voteFor
    && (forall k :: 0 <= k < |voters| ==> Two(s, i, voters[k]) && WouldVote(s.nodes[voters[k] - 1], s.nodes[i - 1]))
    && (forall k, l :: 0 <= k < l < |voters| ==> voters[k] != voters[l])
  }

  /** The nodes after an election of `n` as host `i`. */
  function AfterElection(nodes: seq<Node>, i: Id, voters: seq<Id>, remotes: set<Id>): (r: seq<Node>)
    requires 1 <= i <= |nodes|
    ensures |r| == |nodes|
  {
    seq(|nodes|, k requires 0 <= k < |nodes| =>
      if k + 1 == i then Elected(nodes[i - 1], i, voters, remotes)
      else if k + 1 in voters then Voting(nodes[k], nodes[i - 1].term + 1, i)
      else nodes[k])
  }

  /** The scene a move leaves behind. */
  ghost function After(s: Scene, m: Move, off: Option<Guard>): Scene
    requires Can(s, m, off)
  {
    var n := s.nodes[m.i - 1];
    match m
    case Run(i) => s.(nodes := s.nodes[i - 1 := StartElection(n, i)])
    case Serve(i, op, value) => s.(nodes := s.nodes[i - 1 := ClientAppend(n, op, value)])
    case Win(i, voters) =>
      s.(nodes := AfterElection(s.nodes, i, voters, Others(s, i)), lately := s.lately[i - 1 := []])
    case StepDown(i, j) => s.(nodes := s.nodes[i - 1 := ToFollower(n, s.nodes[j - 1].term)])
    case Hear(i, j, lands) =>
      s.(nodes := s.nodes[j - 1 := Obeying(s.nodes[j - 1], i, n.term, if lands then n.log else s.nodes[j - 1].log)])
    case Miss(i, j) =>
      s.(nodes := s.nodes[i - 1 := n.(nextIndex := n.nextIndex[j := BackOff(Before(s, i, j))])]
                         [j - 1 := Obeying(s.nodes[j - 1], i, n.term, s.nodes[j - 1].log)])
    case Take(i, j, sets, now, recent, commit) =>
      s.(nodes := s.nodes[i - 1 := n.(nextIndex := n.nextIndex[j := |n.log| + 1],
                                      pending := OnRecord(now), commit := commit)]
                         [j - 1 := Obeying(s.nodes[j - 1], i, n.term, n.log)],
         lately := s.lately[i - 1 := recent])
    case Ask(i, j) => s.(net := s.net[(i, j) := VoteAsk(VoteRequestOf(n, i))])
    case Grant(i, j) =>
      var (n', reply) := HandleVote(s.nodes[j - 1], Under(s, i, j).vreq);
      s.(nodes := s.nodes[j - 1 := n'], net := s.net[(i, j) := VoteAnswer(Under(s, i, j).vreq, reply)])
    case Count(i, j) =>
      var n' := CountVote(n, i, Others(s, i), j, Under(s, i, j).vreply);
      s.(nodes := s.nodes[i - 1 := n'], net := s.net[(i, j) := Idle],
         lately := if n.role != Leader && n'.role == Leader then s.lately[i - 1 := []] else s.lately)
    case Send(i, j) => s.(net := s.net[(i, j) := AppendAsk(AppendRequestOf(n, i, j), n.log)])
    case Deliver(i, j) =>
      var f := Under(s, i, j);
      var (n', reply) := HandleAppend(s.nodes[j - 1], f.areq);
      s.(nodes := s.nodes[j - 1 := n'], net := s.net[(i, j) := AppendAnswer(f.areq, f.full, reply)])
    case Finish(i, j) =>
      var f := Under(s, i, j);
      s.(nodes := s.nodes[i - 1 := FinishAppend(n, Others(s, i), j, f.areq, f.areply)], net := s.net[(i, j) := Idle])
  }

  ghost predicate Next(s: Scene, m: Move, s': Scene, off: Option<Guard>) {
    Can(s, m, off) && After(s, m, off) == s'
  }

  // ---------------------------------------------------------------- every move can be made

  lemma PlayRun(tr: Trace, off: Option<Guard>, s: Scene, i: Id, s': Scene) returns (tr': Trace)
    requires Reaches(tr, off, s) && Next(s, Run(i), s', off)
    ensures Reaches(tr', off, s') && Extends(tr, tr') && tr'.end.replicas == tr.end.replicas
  {
    hide Ok, Wf, RecentAt, StartElection, Changes, Shows;
    Seen(tr.end, s, i);
    tr' := BidStep(tr, off, i);
    ShowsOne(tr.end, tr'.end, s, s', i);
  }

  lemma PlayServe(tr: Trace, off: Option<Guard>, s: Scene, m: Move, s': Scene) returns (tr': Trace)
    requires Reaches(tr, off, s) && Next(s, m, s', off) && m.Serve?
    ensures Reaches(tr', off, s') && Extends(tr, tr') && tr'.end.replicas == tr.end.replicas
  {
    hide Ok, Wf, RecentAt, ClientAppend, Changes, ValidatePath, Shows;
    Seen(tr.end, s, m.i);
    tr' := ServeStep(tr, off, m.i, m.op, m.value);
    ShowsOne(tr.end, tr'.end, s, s', m.i);
  }

  lemma SeenElectors(c: Cluster, s: Scene, i: Id, voters: seq<Id>)
    requires Shows(c, s) && Hosted(s, i) && Electable(s, i, voters)
    ensures Electors(c, i, voters) && i !in voters
  {
    hide WouldVote, RecentAt, OnRecord;
    forall k | 0 <= k < |voters| ensures Clear(c, i, voters[k]) && WouldVote(NodeAt(c, voters[k]), NodeAt(c, i)) {
      assert Two(s, i, voters[k]);
    }
  }

  lemma EmptyRecord()
    ensures OnRecord([]) == map[]
  {
  }

  lemma WinIs(s: Scene, off: Option<Guard>, i: Id, voters: seq<Id>, s': Scene)
    requires Next(s, Win(i, voters), s', off)
    ensures Hosted(s, i) && Electable(s, i, voters)
    ensures s' == s.(nodes := AfterElection(s.nodes, i, voters, Others(s, i)), lately := s.lately[i - 1 := []])
  {
    hide Electable, AfterElection;
  }

  /** What an election leaves of the nodes. */
  lemma Won(c: Cluster, s: Scene, i: Id, voters: seq<Id>, k: int)
    requires Shows(c, s) && Hosted(s, i) && i !in voters && 1 <= k <= |s.nodes|
    ensures AfterElection(s.nodes, i, voters, Others(s, i))[k - 1] ==
            if k == i then Elected(NodeAt(c, i), i, voters, Others(s, i))
            else if k in voters then Voting(NodeAt(c, k), NodeAt(c, i).term + 1, i)
            else s.nodes[k - 1]
  {
    hide Elected, Voting, RecentAt, OnRecord, Wf;
  }

  lemma PlayWin(tr: Trace, off: Option<Guard>, s: Scene, i: Id, voters: seq<Id>, s': Scene) returns (tr': Trace)
    requires Reaches(tr, off, s) && Next(s, Win(i, voters), s', off)
    ensures Reaches(tr', off, s') && Extends(tr, tr') && tr'.end.replicas == tr.end.replicas
  {
    hide Ok, Wf, RecentAt, OnRecord, Changes, WouldVote, Voting, Elected, Electors, Electable,
         Quorum, Next, AfterElection, Shows;
    WinIs(s, off, i, voters, s');
    Seen(tr.end, s, i);
    SeenElectors(tr.end, s, i, voters);
    WinNeeds(s, i, voters);
    tr' := Elect(tr, off, i, voters);
    WinShows(tr.end, tr'.end, s, i, voters, s');
  }

  lemma WinNeeds(s: Scene, i: Id, voters: seq<Id>)
    requires Hosted(s, i) && Electable(s, i, voters)
    ensures voters != [] && |voters| == |s.nodes| / 2
    ensures s.nodes[i - 1].role != Leader && s.nodes[i - 1].term + 1 !in s.nodes[i - 1].voteFor
  {
    hide WouldVote;
  }

  lemma WinShows(c: Cluster, c': Cluster, s: Scene, i: Id, voters: seq<Id>, s': Scene)
    requires Shows(c, s) && Hosted(s, i) && i !in voters && Changes(c, c', {i} + set v | v in voters)
    requires s' == s.(nodes := AfterElection(s.nodes, i, voters, Others(s, i)), lately := s.lately[i - 1 := []])
    requires NodeAt(c', i) == Elected(NodeAt(c, i), i, voters, Others(s, i)) && RecentAt(c', i) == map[]
    requires forall v :: v in voters ==>
               NodeAt(c', v) == Voting(NodeAt(c, v), NodeAt(c, i).term + 1, i) && RecentAt(c', v) == RecentAt(c, v)
    ensures Shows(c', s') && c'.replicas == c.replicas
  {
    hide Wf, RecentAt, OnRecord, Changes, Voting, Elected, AfterElection, Shows;
    EmptyRecord();
    forall k | 1 <= k <= |s.nodes|
      ensures k == i || k in voters ==>
                NodeAt(c', k) == s'.nodes[k - 1] && RecentAt(c', k) == OnRecord(s'.lately[k - 1])
      ensures k != i && k !in voters ==> s'.nodes[k - 1] == s.nodes[k - 1] && s'.lately[k - 1] == s.lately[k - 1]
    {
      Won(c, s, i, voters, k);
      SeenRecent(c, s, k);
    }
    ShowsNext(c, c', s, s', {i} + set v | v in voters);
  }

  lemma PlayStepDown(tr: Trace, off: Option<Guard>, s: Scene, i: Id, j: Id, s': Scene) returns (tr': Trace)
    requires Reaches(tr, off, s) && Next(s, StepDown(i, j), s', off)
    ensures Reaches(tr', off, s') && Extends(tr, tr') && tr'.end.replicas == tr.end.replicas
  {
    hide Ok, Wf, RecentAt, ToFollower, Changes, Contiguous, Shows;
    SeenPair(tr.end, s, i, j);
    tr' := Deposed(tr, off, i, j);
    ShowsOne(tr.end, tr'.end, s, s', i);
  }

  lemma PlayHear(tr: Trace, off: Option<Guard>, s: Scene, i: Id, j: Id, lands: bool, s': Scene) returns (tr': Trace)
    requires Reaches(tr, off, s) && Next(s, Hear(i, j, lands), s', off)
    ensures Reaches(tr', off, s') && Extends(tr, tr') && tr'.end.replicas == tr.end.replicas
  {
    hide Ok, Wf, RecentAt, Changes, Contiguous, Obeying, Lands, Misses, Shows;
    SeenPair(tr.end, s, i, j);
    tr' := Meets(tr, off, i, j, lands);
    ShowsOne(tr.end, tr'.end, s, s', j);
  }

  lemma PlayMiss(tr: Trace, off: Option<Guard>, s: Scene, i: Id, j: Id, s': Scene) returns (tr': Trace)
    requires Reaches(tr, off, s) && Next(s, Miss(i, j), s', off)
    ensures Reaches(tr', off, s') && Extends(tr, tr') && tr'.end.replicas == tr.end.replicas
  {
    hide Ok, Wf, RecentAt, Changes, Contiguous, Obeying, Misses, BackOff, Shows;
    SeenPair(tr.end, s, i, j);
    tr' := Refuses(tr, off, i, j);
    ShowsBoth(tr.end, tr'.end, s, s', i, j);
  }

  lemma TakeIs(s: Scene, m: Move, s': Scene, off: Option<Guard>)
    requires Next(s, m, s', off) && m.Take?
    ensures Hosted(s, m.i) && Hosted(s, m.j) && m.i != m.j && Leads(s, m.i, m.j)
    ensures var n, p := s.nodes[m.i - 1], Before(s, m.i, m.j);
            && s.nodes[m.j - 1].term == n.term && n.commit == 0 <= s.nodes[m.j - 1].commit
            && Lands(s.nodes[m.j - 1].log, n.log, p) && n.pending == OnRecord(m.sets)
            && 0 <= p
            && m.now == Adding(m.sets, m.j, p, |n.log|) && m.recent == Adding(s.lately[m.i - 1], m.j, p, |n.log|)
            && Settles(n, p, m.now, m.recent, m.commit, |s.nodes| / 2 + 1, off)
            && s' == s.(nodes := s.nodes[m.i - 1 := n.(nextIndex := n.nextIndex[m.j := |n.log| + 1],
                                                        pending := OnRecord(m.now), commit := m.commit)]
                                        [m.j - 1 := Obeying(s.nodes[m.j - 1], m.i, n.term, n.log)],
                        lately := s.lately[m.i - 1 := m.recent])
  {
    hide Settles, Lands, Adding, OnRecord, Obeying, Contiguous;
  }

  lemma SeenLeads(c: Cluster, s: Scene, i: Id, j: Id)
    requires Shows(c, s) && Hosted(s, i) && Hosted(s, j) && Leads(s, i, j)
    ensures Sending(c, i, j) && NodeAt(c, i) == s.nodes[i - 1] && NodeAt(c, j) == s.nodes[j - 1]
  {
    hide RecentAt, OnRecord, Contiguous;
  }

  lemma TakeStep(tr: Trace, off: Option<Guard>, s: Scene, m: Move, s': Scene) returns (tr': Trace)
    requires Ok(tr, off) && Shows(tr.end, s) && Next(s, m, s', off) && m.Take?
    ensures Hosted(s, m.i) && Hosted(s, m.j) && Hosted(s', m.i) && Hosted(s', m.j)
    ensures Ok(tr', off) && Extends(tr, tr') && EndsWith(tr, tr', m.i, m.j) && Changes(tr.end, tr'.end, {m.i, m.j})
    ensures NodeAt(tr'.end, m.i) == s'.nodes[m.i - 1] && RecentAt(tr'.end, m.i) == OnRecord(s'.lately[m.i - 1])
    ensures NodeAt(tr'.end, m.j) == s'.nodes[m.j - 1] && RecentAt(tr'.end, m.j) == OnRecord(s'.lately[m.j - 1])
  {
    hide Ok, Wf, RecentAt, OnRecord, Obeying, Changes, Contiguous, Lands, Adding, Settles, Quorum,
         Next, EndsWith, Shows, Leads;
    TakeIs(s, m, s', off);
    Seen(tr.end, s, m.i);
    SeenLeads(tr.end, s, m.i, m.j);
    SeenRecent(tr.end, s, m.i);
    SeenRecent(tr.end, s, m.j);
    tr' := Takes(tr, off, m.i, m.j, m.sets, s.lately[m.i - 1], m.commit);
  }

  lemma PlayTake(tr: Trace, off: Option<Guard>, s: Scene, m: Move, s': Scene) returns (tr': Trace)
    requires Reaches(tr, off, s) && Next(s, m, s', off) && m.Take?
    ensures Reaches(tr', off, s') && Extends(tr, tr') && tr'.end.replicas == tr.end.replicas
    ensures EndsWith(tr, tr', m.i, m.j)
  {
    hide Ok, Wf, RecentAt, OnRecord, Obeying, Changes, Lands, Adding, Settles, Quorum, Next, EndsWith, Shows, Leads;
    TakeIs(s, m, s', off);
    tr' := TakeStep(tr, off, s, m, s');
    ShowsNext(tr.end, tr'.end, s, s', {m.i, m.j});
  }

  /** The same as ShowsNext, for a step that changes what is under way. */
  lemma ShowsFlight(c: Cluster, c': Cluster, s: Scene, s': Scene, who: set<Id>, i: Id, j: Id, f: Flight)
    requires Shows(c, s) && ChangesFlight(c, c', who, i, j, f) && |s'.nodes| == |s.nodes| && |s'.lately| == |s.lately|
    requires s'.net == s.net[(i, j) := f]
    requires forall k :: 1 <= k <= |s.nodes| ==>
               if k in who then NodeAt(c', k) == s'.nodes[k - 1] && RecentAt(c', k) == OnRecord(s'.lately[k - 1])
               else s'.nodes[k - 1] == s.nodes[k - 1] && s'.lately[k - 1] == s.lately[k - 1]
    ensures Shows(c', s') && c'.replicas == c.replicas
  {
    hide RecentAt, OnRecord, Wf;
    forall k | 1 <= k <= |s'.nodes|
      ensures NodeAt(c', k) == s'.nodes[k - 1] && RecentAt(c', k) == OnRecord(s'.lately[k - 1])
    {
      if k !in who {
        assert NodeAt(c', k) == NodeAt(c, k);
      }
    }
  }

  /** For one host, or none. */
  lemma ShowsFlightOne(c: Cluster, c': Cluster, s: Scene, s': Scene, x: Id, i: Id, j: Id, f: Flight)
    requires Shows(c, s) && Hosted(s, x) && ChangesFlight(c, c', {x}, i, j, f) && s'.net == s.net[(i, j) := f]
    requires s'.nodes == s.nodes[x - 1 := NodeAt(c', x)] && s'.lately == s.lately && RecentAt(c', x) == RecentAt(c, x)
    ensures Shows(c', s') && c'.replicas == c.replicas
  {
    hide RecentAt, OnRecord, Wf, ChangesFlight;
    ShowsFlight(c, c', s, s', {x}, i, j, f);
  }

  lemma ShowsFlightNone(c: Cluster, c': Cluster, s: Scene, s': Scene, i: Id, j: Id, f: Flight)
    requires Shows(c, s) && ChangesFlight(c, c', {}, i, j, f) && s' == s.(net := s.net[(i, j) := f])
    ensures Shows(c', s') && c'.replicas == c.replicas
  {
    hide RecentAt, OnRecord, Wf, ChangesFlight;
    ShowsFlight(c, c', s, s', {}, i, j, f);
  }

  lemma PlayAsk(tr: Trace, off: Option<Guard>, s: Scene, i: Id, j: Id, s': Scene) returns (tr': Trace)
    requires Reaches(tr, off, s) && Next(s, Ask(i, j), s', off)
    ensures Reaches(tr', off, s') && Extends(tr, tr') && tr'.end.replicas == tr.end.replicas
  {
    hide Ok, Wf, RecentAt, OnRecord, VoteRequestOf, ChangesFlight, Shows;
    SeenPair(tr.end, s, i, j);
    tr' := AskStep(tr, off, i, j);
    ShowsFlightNone(tr.end, tr'.end, s, s', i, j, VoteAsk(VoteRequestOf(s.nodes[i - 1], i)));
  }

  lemma PlayGrant(tr: Trace, off: Option<Guard>, s: Scene, i: Id, j: Id, s': Scene) returns (tr': Trace)
    requires Reaches(tr, off, s) && Next(s, Grant(i, j), s', off)
    ensures Reaches(tr', off, s') && Extends(tr, tr') && tr'.end.replicas == tr.end.replicas
  {
    hide Ok, Wf, RecentAt, OnRecord, HandleVote, ChangesFlight, Shows;
    SeenPair(tr.end, s, i, j);
    var f := Under(s, i, j);
    tr' := GrantStep(tr, off, i, j, f.vreq);
    ShowsFlightOne(tr.end, tr'.end, s, s', j, i, j, VoteAnswer(f.vreq, HandleVote(s.nodes[j - 1], f.vreq).1));
  }

  lemma PlayCount(tr: Trace, off: Option<Guard>, s: Scene, i: Id, j: Id, s': Scene) returns (tr': Trace)
    requires Reaches(tr, off, s) && Next(s, Count(i, j), s', off)
    ensures Reaches(tr', off, s') && Extends(tr, tr') && tr'.end.replicas == tr.end.replicas
  {
    hide Ok, Wf, RecentAt, OnRecord, CountVote, ChangesFlight, Shows;
    SeenPair(tr.end, s, i, j);
    SeenRecent(tr.end, s, i);
    EmptyRecord();
    tr' := CountStep(tr, off, i, j, Under(s, i, j).vreq, Under(s, i, j).vreply);
    ShowsFlight(tr.end, tr'.end, s, s', {i}, i, j, Idle);
  }

  lemma PlaySend(tr: Trace, off: Option<Guard>, s: Scene, i: Id, j: Id, s': Scene) returns (tr': Trace)
    requires Reaches(tr, off, s) && Next(s, Send(i, j), s', off)
    ensures Reaches(tr', off, s') && Extends(tr, tr') && tr'.end.replicas == tr.end.replicas
  {
    hide Ok, Wf, RecentAt, OnRecord, AppendRequestOf, ChangesFlight, Shows;
    SeenPair(tr.end, s, i, j);
    tr' := SendStep(tr, off, i, j);
    ShowsFlightNone(tr.end, tr'.end, s, s', i, j, AppendAsk(AppendRequestOf(s.nodes[i - 1], i, j), s.nodes[i - 1].log));
  }

  lemma PlayDeliver(tr: Trace, off: Option<Guard>, s: Scene, i: Id, j: Id, s': Scene) returns (tr': Trace)
    requires Reaches(tr, off, s) && Next(s, Deliver(i, j), s', off)
    ensures Reaches(tr', off, s') && Extends(tr, tr') && tr'.end.replicas == tr.end.replicas
  {
    hide Ok, Wf, RecentAt, OnRecord, HandleAppend, ChangesFlight, DeliverGuards, Shows;
    SeenPair(tr.end, s, i, j);
    var f := Under(s, i, j);
    tr' := DeliverStep(tr, off, i, j, f.areq, f.full);
    ShowsFlightOne(tr.end, tr'.end, s, s', j, i, j,
                   AppendAnswer(f.areq, f.full, HandleAppend(s.nodes[j - 1], f.areq).1));
  }

  lemma RefusalStays(n: Node, recent: map<int, set<Id>>, remotes: set<Id>, j: Id, req: AppendRequest,
                     reply: AppendReply,
                     off: Option<Guard>)
    requires !reply.success && (off == Some(Refusals) || req.term == n.term)
    ensures FinishGuards(n, recent, remotes, j, req, reply, off) && RecentNow(n, recent, j, req, reply) == recent
  {
  }

  lemma PlayFinish(tr: Trace, off: Option<Guard>, s: Scene, i: Id, j: Id, s': Scene) returns (tr': Trace)
    requires Reaches(tr, off, s) && Next(s, Finish(i, j), s', off)
    ensures Reaches(tr', off, s') && Extends(tr, tr') && tr'.end.replicas == tr.end.replicas
  {
    hide Ok, Wf, RecentAt, OnRecord, FinishAppend, FinishGuards, RecentNow, ChangesFlight, Shows;
    SeenPair(tr.end, s, i, j);
    var f := Under(s, i, j);
    RefusalStays(s.nodes[i - 1], RecentAt(tr.end, i), Others(s, i), j, f.areq, f.areply, off);
    tr' := FinishStep(tr, off, i, j, f.areq, f.full, f.areply);
    ShowsFlightOne(tr.end, tr'.end, s, s', i, i, j, Idle);
  }

  /** Every move can be made in some steps that keep to the guards left on. */
  lemma Play(tr: Trace, off: Option<Guard>, s: Scene, m: Move, s': Scene) returns (tr': Trace)
    requires Reaches(tr, off, s) && Next(s, m, s', off)
    ensures Reaches(tr', off, s') && Extends(tr, tr') && tr'.end.replicas == tr.end.replicas
    ensures m.Take? ==> EndsWith(tr, tr', m.i, m.j)
  {
    hide *;
    match m
    case Run(i) => tr' := PlayRun(tr, off, s, i, s');
    case Serve(i, op, value) => tr' := PlayServe(tr, off, s, m, s');
    case Win(i, voters) => tr' := PlayWin(tr, off, s, i, voters, s');
    case StepDown(i, j) => tr' := PlayStepDown(tr, off, s, i, j, s');
    case Hear(i, j, lands) => tr' := PlayHear(tr, off, s, i, j, lands, s');
    case Miss(i, j) => tr' := PlayMiss(tr, off, s, i, j, s');
    case Take(i, j, sets, now, recent, commit) => tr' := PlayTake(tr, off, s, m, s');
    case Ask(i, j) => tr' := PlayAsk(tr, off, s, i, j, s');
    case Grant(i, j) => tr' := PlayGrant(tr, off, s, i, j, s');
    case Count(i, j) => tr' := PlayCount(tr, off, s, i, j, s');
    case Send(i, j) => tr' := PlaySend(tr, off, s, i, j, s');
    case Deliver(i, j) => tr' := PlayDeliver(tr, off, s, i, j, s');
    case Finish(i, j) => tr' := PlayFinish(tr, off, s, i, j, s');
  }

  // ---------------------------------------------------------------- wake-ups

  lemma WakeGuarded(c: Cluster, i: Id, off: Option<Guard>)
    requires Enabled(c, Wake(i)) && i in c.replicas
    requires off == Some(Wakes) || Pass(NodeAt(c, i), Remotes(c, i), c.replicas[i]) != []
    ensures KeepsAllBut(c, Wake(i), off)
  {
    hide Pass, CanApplyAll, WakeDefined;
    forall g | off != Some(g) ensures Keeps(c, Wake(i), g) {
    }
  }

  lemma WakeEnabled(c: Cluster, i: Id, n: Node, remotes: set<Id>, r: Replica)
    requires Wf(c) && i in c.ids && NodeAt(c, i) == n && Remotes(c, i) == remotes
    requires i in c.replicas && c.replicas[i] == r
    requires CommitIndex(n) != r.applied && WakeDefined(n, remotes, r) && CanApplyAll(r.tree, Pass(n, remotes, r))
    ensures Enabled(c, Wake(i))
  {
    hide Pass, CanApplyAll, WakeDefined;
  }

  /** Host `i` wakes up. */
  lemma WakesUp(tr: Trace, off: Option<Guard>, s: Scene, i: Id, r: Replica) returns (tr': Trace)
    requires Reaches(tr, off, s) && 1 <= i <= |s.nodes| && i in tr.end.replicas && tr.end.replicas[i] == r
    requires var n, remotes := s.nodes[i - 1], Others(s, i);
             && CommitIndex(n) != r.applied && WakeDefined(n, remotes, r) && CanApplyAll(r.tree, Pass(n, remotes, r))
             && (off == Some(Wakes) || Pass(n, remotes, r) != [])
    ensures Reaches(tr', off, s) && Extends(tr, tr')
    ensures tr'.end.replicas == tr.end.replicas[i := WakeUp(s.nodes[i - 1], Others(s, i), r)]
  {
    hide Ok, Wf, OnRecord, CanApplyAll, Pass, WakeUp, WakeDefined, KeepsAllBut, Step, Enabled, Shows, RecentAt;
    Seen(tr.end, s, i);
    WakeEnabled(tr.end, i, s.nodes[i - 1], Others(s, i), r);
    WakeGuarded(tr.end, i, off);
    WakeMoves(tr.end, i);
    tr' := Act(tr, off, Wake(i));
    StillShows(tr.end, tr'.end, s, i);
  }

  lemma StillShows(c: Cluster, c': Cluster, s: Scene, i: Id)
    requires Shows(c, s) && Moved(c, c', i, NodeAt(c, i), i, i, FlightAt(c, i, i)) && c'.h == c.h
    ensures Shows(c', s)
  {
    hide OnRecord, Wf;
  }
}
