/** Admission of Runs into causal trees, and what every reachable forest of Runs is like. */
module CausalTree {
  import opened Sequences
  import opened Machines

  datatype Result<+T> =
    | Ok(value: T)
    | NotFound(message: string)
    | Conflict(message: string)
    | CausalLimitExceeded(dimension: string)

  /** Where a Run works. */
  datatype Place = Place(project: string, channel: string, thread: string)

  datatype Run = Run(root: string, parent: Option<string>, depth: nat, place: Place, owner: string, terminal: bool)

  datatype Author = Human | Agent(agentId: string) | Runtime

  /** The message an attention points at. */
  datatype Message = Message(id: string, author: Author, causedBy: Option<string>)

  datatype Attention = Attention(place: Place, source: Option<Message>)

  datatype Limits = Limits(maxDepth: nat, maxNonTerminal: nat)

  datatype Provenance = Provenance(root: string, parent: Option<string>, depth: nat)

  type Runs = map<string, Run>

  function Live(runs: Runs, root: string): set<string> {
    set id | id in runs && runs[id].root == root && !runs[id].terminal
  }

  /** The tree a new Run would belong to. */
  function ProvenanceOf(runs: Runs, attention: Attention): Result<Provenance> {
    if attention.source.None? then Conflict("Run creation requires a durable source Message.") else
    var source := attention.source.value;
    if source.author.Human? && source.causedBy.None? then Ok(Provenance(source.id, None, 0))
    else if source.author.Agent? && source.causedBy.Some? then
      var parentId := source.causedBy.value;
      if parentId !in runs then NotFound("The Run does not exist.") else
      var parent := runs[parentId];
      if parent.place != attention.place || parent.owner != source.author.agentId
      then Conflict("The source Message does not match its parent Run.")
      else Ok(Provenance(parent.root, Some(parentId), parent.depth + 1))
    else Conflict("Run creation requires trustworthy Human or Run provenance.")
  }

  function Admit(runs: Runs, limits: Option<Limits>, attention: Attention): Result<Provenance> {
    match ProvenanceOf(runs, attention)
    case NotFound(message) => NotFound(message)
    case Conflict(message) => Conflict(message)
    case CausalLimitExceeded(dimension) => CausalLimitExceeded(dimension)
    case Ok(p) =>
      if limits.None? then Conflict("The database is missing its durable causal limits.")
      else if p.depth > limits.value.maxDepth then CausalLimitExceeded("depth")
      else if |Live(runs, p.root)| >= limits.value.maxNonTerminal then CausalLimitExceeded("nonTerminalRuns")
      else Ok(p)
  }

  // ---- runs of the server ----------------------------------------------------------------------

  datatype Step =
    | Create(id: string, attention: Attention, owner: string)
    | Finish(id: string)

  ghost predicate Enabled(runs: Runs, limits: Option<Limits>, a: Step) {
    match a
    case Create(id, attention, _) => id !in runs && Admit(runs, limits, attention).Ok?
    case Finish(id) => id in runs
  }

  ghost function Take(runs: Runs, limits: Option<Limits>, a: Step): Runs
    requires Enabled(runs, limits, a)
  {
    match a
    case Create(id, attention, owner) =>
      var p := Admit(runs, limits, attention).value;
      runs[id := Run(p.root, p.parent, p.depth, attention.place, owner, false)]
    case Finish(id) => runs[id := runs[id].(terminal := true)]
  }

  ghost function Server(limits: Option<Limits>): Machine<Runs, Step> {
    Machine((s, a) => Enabled(s, limits, a),
            (s: Runs, a: Step) => if Enabled(s, limits, a) then Take(s, limits, a) else s)
  }

  // ---- forests ---------------------------------------------------------------------------------

  /** A Run without a parent is at depth zero; one with a parent is one deeper, in its tree and its place. */
  ghost predicate Linked(runs: Runs, r: Run) {
    match r.parent
    case None => r.depth == 0
    case Some(p) => p in runs && r.depth == runs[p].depth + 1 && r.root == runs[p].root && r.place == runs[p].place
  }

  ghost predicate Forest(runs: Runs) {
    forall id :: id in runs ==> Linked(runs, runs[id])
  }

  ghost predicate WithinLimits(runs: Runs, limits: Limits) {
    && (forall id :: id in runs ==> runs[id].depth <= limits.maxDepth)
    && (forall root :: |Live(runs, root)| <= limits.maxNonTerminal)
  }

  ghost predicate Good(runs: Runs, limits: Option<Limits>) {
    Forest(runs) && if limits.None? then runs == map[] else WithinLimits(runs, limits.value)
  }

  /** The ancestors of a Run, nearest first. */
  ghost function Ancestors(runs: Runs, id: string): seq<string>
    requires Forest(runs) && id in runs
    decreases runs[id].depth
  {
    assert Linked(runs, runs[id]);
    match runs[id].parent
    case None => []
    case Some(p) => [p] + Ancestors(runs, p)
  }

  /** A Run's depth is the length of its chain of ancestors, which repeats no Run, ends at one without a
      parent, and stays in one tree, project, channel and thread. */
  lemma {:induction false} DepthIsChainLength(runs: Runs, id: string)
    requires Forest(runs) && id in runs
    ensures var chain := Ancestors(runs, id);
      && |chain| == runs[id].depth
      && Distinct([id] + chain)
      && (forall x :: x in chain ==>
            && x in runs && runs[x].root == runs[id].root && runs[x].place == runs[id].place
            && runs[x].depth < runs[id].depth)
      && runs[([id] + chain)[|chain|]].parent == None
    decreases runs[id].depth
  {
    assert Linked(runs, runs[id]);
    if runs[id].parent.Some? {
      var p := runs[id].parent.value;
      DepthIsChainLength(runs, p);
      var chain := Ancestors(runs, id);
      assert chain == [p] + Ancestors(runs, p);
      assert id !in chain;
      assert ([id] + chain)[|chain|] == chain[|chain| - 1];
    }
  }

  lemma InsertLinks(runs: Runs, id: string, r: Run)
    requires Forest(runs) && id !in runs && Linked(runs, r)
    ensures Forest(runs[id := r])
  {
    var after := runs[id := r];
    forall x | x in after ensures Linked(after, after[x]) {
      if x in runs && x != id { assert Linked(runs, runs[x]); }
    }
  }

  lemma InsertCounts(runs: Runs, id: string, r: Run, root: string)
    requires id !in runs && !r.terminal
    ensures |Live(runs[id := r], root)| == |Live(runs, root)| + if root == r.root then 1 else 0
  {
    assert Live(runs[id := r], root) == Live(runs, root) + if root == r.root then {id} else {};
  }

  lemma CreateKeeps(runs: Runs, limits: Option<Limits>, id: string, attention: Attention, owner: string)
    requires Good(runs, limits) && Enabled(runs, limits, Create(id, attention, owner))
    ensures Good(Take(runs, limits, Create(id, attention, owner)), limits)
  {
    hide Live, Forest;
    var p := Admit(runs, limits, attention).value;
    var r := Run(p.root, p.parent, p.depth, attention.place, owner, false);
    InsertLinks(runs, id, r);
    var after := runs[id := r];
    forall root ensures |Live(after, root)| <= limits.value.maxNonTerminal {
      InsertCounts(runs, id, r, root);
    }
  }

  lemma FinishKeeps(runs: Runs, limits: Option<Limits>, id: string)
    requires Good(runs, limits) && id in runs
    ensures Good(Take(runs, limits, Finish(id)), limits)
  {
    var after := Take(runs, limits, Finish(id));
    forall x | x in after ensures Linked(after, after[x]) {
      assert Linked(runs, runs[x]);
    }
    forall root ensures |Live(after, root)| <= limits.value.maxNonTerminal {
      assert Live(after, root) <= Live(runs, root);
      SubsetSize(Live(after, root), Live(runs, root));
    }
  }

  /** In every reachable forest each root has at most its number of live Runs and no Run is too deep. */
  lemma EveryForestIsWithinLimits(limits: Limits, steps: seq<Step>)
    requires Legal(Server(Some(limits)), map[], steps)
    ensures var runs := After(Server(Some(limits)), map[], steps); Forest(runs) && WithinLimits(runs, limits)
  {
    var m := Server(Some(limits));
    forall s: Runs, a: Step | Good(s, Some(limits)) && m.enabled(s, a) ensures Good(m.next(s, a), Some(limits)) {
      match a
      case Create(id, attention, owner) => CreateKeeps(s, Some(limits), id, attention, owner);
      case Finish(id) => FinishKeeps(s, Some(limits), id);
    }
    assert forall root :: Live(map[], root) == {};
    RunKeeps(m, (s: Runs) => Good(s, Some(limits)), map[], steps);
  }

  ghost predicate Endures(s: Runs, t: Runs) {
    forall id :: id in s ==>
      id in t && t[id] == s[id].(terminal := t[id].terminal) && (s[id].terminal ==> t[id].terminal)
  }

  /** A Run keeps its place in its tree for good, and once terminal stays terminal. */
  lemma ProvenanceEndures(limits: Option<Limits>, runs: Runs, steps: seq<Step>)
    requires Legal(Server(limits), runs, steps)
    ensures Endures(runs, After(Server(limits), runs, steps))
  {
    RunRelates(Server(limits), (s: Runs) => true, Endures, runs, steps);
  }

  // ---- where the Runs came from ----------------------------------------------------------------

  datatype Birth = Birth(attention: Attention, owner: string)

  /** The Runs, and beside them what they were created for and which were finished. */
  datatype History = History(runs: Runs, births: map<string, Birth>, finished: set<string>)

  const Nothing := History(map[], map[], {})

  ghost function Recorder(limits: Limits): Machine<History, Step> {
    Machine((h: History, a: Step) => Enabled(h.runs, Some(limits), a),
            (h: History, a: Step) => if Enabled(h.runs, Some(limits), a) then Recorded(h, limits, a) else h)
  }

  ghost function Recorded(h: History, limits: Limits, a: Step): History
    requires Enabled(h.runs, Some(limits), a)
  {
    var runs := Take(h.runs, Some(limits), a);
    match a
    case Create(id, attention, owner) => History(runs, h.births[id := Birth(attention, owner)], h.finished)
    case Finish(id) => History(runs, h.births, h.finished + {id})
  }

  /** A Human wrote the message by himself. */
  ghost predicate FromHuman(attention: Attention) {
    attention.source.Some? && attention.source.value.author.Human? && attention.source.value.causedBy.None?
  }

  /** An agent wrote the message in its own Run `p`, which works where the attention points. */
  ghost predicate FromRun(births: map<string, Birth>, attention: Attention, p: string) {
    && p in births && attention.source.Some? && attention.source.value.causedBy == Some(p)
    && attention.source.value.author == Agent(births[p].owner) && attention.place == births[p].attention.place
  }

  /** The Run says of itself what it was created for. */
  ghost predicate Told(h: History, id: string)
    requires id in h.runs && id in h.births
  {
    var r, b := h.runs[id], h.births[id];
    && r.place == b.attention.place && r.owner == b.owner && (r.terminal <==> id in h.finished)
    && match r.parent
       case None => FromHuman(b.attention) && r.root == b.attention.source.value.id
       case Some(p) => FromRun(h.births, b.attention, p)
  }

  ghost predicate Attested(h: History) {
    && Forest(h.runs) && h.runs.Keys == h.births.Keys && h.finished <= h.runs.Keys
    && forall id :: id in h.runs ==> Told(h, id)
  }

  lemma RecordedIsTrue(h: History, limits: Limits, a: Step)
    requires Attested(h) && Good(h.runs, Some(limits)) && Enabled(h.runs, Some(limits), a)
    ensures Attested(Recorded(h, limits, a)) && Good(Recorded(h, limits, a).runs, Some(limits))
  {
    hide Live, Good, Forest, Admit, Told;
    var t := Recorded(h, limits, a);
    match a {
      case Create(id, attention, owner) =>
        CreateKeeps(h.runs, Some(limits), id, attention, owner);
        forall x | x in t.runs ensures Told(t, x) { CreateTells(h, limits, id, attention, owner, x); }
      case Finish(id) =>
        FinishKeeps(h.runs, Some(limits), id);
        forall x | x in t.runs ensures Told(t, x) { FinishTells(h, limits, id, x); }
    }
    GoodIsForest(t.runs, Some(limits));
  }

  lemma CreateTells(h: History, limits: Limits, id: string, attention: Attention, owner: string, x: string)
    requires Attested(h) && Enabled(h.runs, Some(limits), Create(id, attention, owner))
    requires x in Recorded(h, limits, Create(id, attention, owner)).runs
    ensures Told(Recorded(h, limits, Create(id, attention, owner)), x)
  {
    hide Forest, Admit;
    AdmittedIsTold(h, limits, attention);
    assert x in h.runs ==> Told(h, x);
  }

  lemma FinishTells(h: History, limits: Limits, id: string, x: string)
    requires Attested(h) && id in h.runs && x in h.runs
    ensures Told(Recorded(h, limits, Finish(id)), x)
  {
    hide Forest;
    assert Told(h, x);
  }

  lemma AdmittedIsTold(h: History, limits: Limits, attention: Attention)
    requires Attested(h) && Admit(h.runs, Some(limits), attention).Ok?
    ensures match Admit(h.runs, Some(limits), attention).value.parent
      case None =>
        FromHuman(attention) && Admit(h.runs, Some(limits), attention).value.root == attention.source.value.id
      case Some(p) => FromRun(h.births, attention, p)
  {
    hide Live, Attested, Forest, Told;
    var parent := Admit(h.runs, Some(limits), attention).value.parent;
    RunsAreBorn(h);
    if parent.Some? { RunIs(h, parent.value); }
  }

  lemma GoodIsForest(runs: Runs, limits: Option<Limits>)
    requires Good(runs, limits)
    ensures Forest(runs)
  {
  }

  lemma EveryHistoryIsTrue(limits: Limits, steps: seq<Step>)
    requires Legal(Recorder(limits), Nothing, steps)
    ensures var h := After(Recorder(limits), Nothing, steps); Attested(h) && Good(h.runs, Some(limits))
  {
    var m := Recorder(limits);
    var inv := (h: History) => Attested(h) && Good(h.runs, Some(limits));
    forall h: History, a: Step | inv(h) && m.enabled(h, a) ensures inv(m.next(h, a)) {
      RecordedIsTrue(h, limits, a);
    }
    assert forall root :: Live(map[], root) == {};
    RunKeeps(m, inv, Nothing, steps);
  }

  /** The Run at the top of the chain. */
  ghost function Top(runs: Runs, id: string): (top: string)
    requires Forest(runs) && id in runs
    ensures top in runs && runs[top].parent == None
  {
    DepthIsChainLength(runs, id);
    ([id] + Ancestors(runs, id))[|Ancestors(runs, id)|]
  }

  /** The message at the top of the chain, which a Human wrote. */
  ghost function Origin(h: History, id: string): (m: Message)
    requires Attested(h) && id in h.runs
    ensures m.author.Human? && m.causedBy.None?
  {
    assert Told(h, Top(h.runs, id));
    h.births[Top(h.runs, id)].attention.source.value
  }

  lemma TopOfParent(runs: Runs, id: string)
    requires Forest(runs) && id in runs
    ensures match runs[id].parent
      case None => Top(runs, id) == id
      case Some(p) => p in runs && Top(runs, id) == Top(runs, p)
  {
    assert Linked(runs, runs[id]);
    if runs[id].parent.Some? {
      var p := runs[id].parent.value;
      assert Ancestors(runs, id) == [p] + Ancestors(runs, p);
    }
  }

  /** A Run's root is the message of the Human at the top of its chain. */
  lemma {:induction false} RootIsOrigin(h: History, id: string)
    requires Attested(h) && id in h.runs
    ensures h.runs[id].root == Origin(h, id).id
    decreases h.runs[id].depth
  {
    assert Told(h, id) && Linked(h.runs, h.runs[id]);
    TopOfParent(h.runs, id);
    if h.runs[id].parent.Some? {
      RootIsOrigin(h, h.runs[id].parent.value);
    }
  }

  /** In every reachable forest a Run's root is the message of the Human at the top of its chain; hence two Runs
      are in one tree exactly when their chains end at the same message. */
  lemma RootsAreHumanMessages(limits: Limits, steps: seq<Step>, a: string, b: string)
    requires Legal(Recorder(limits), Nothing, steps)
    requires var runs := After(Recorder(limits), Nothing, steps).runs; a in runs && b in runs
    ensures var h := After(Recorder(limits), Nothing, steps);
      && Attested(h) && h.runs[a].root == Origin(h, a).id
      && (h.runs[a].root == h.runs[b].root <==> Origin(h, a).id == Origin(h, b).id)
  {
    EveryHistoryIsTrue(limits, steps);
    RootIsOrigin(After(Recorder(limits), Nothing, steps), a);
    RootIsOrigin(After(Recorder(limits), Nothing, steps), b);
  }

  // ---- admission -------------------------------------------------------------------------------

  /** Runs not finished yet whose chains end at the message. */
  ghost function LiveFrom(h: History, message: string): set<string>
    requires Attested(h)
  {
    set id | id in h.runs && id !in h.finished && Origin(h, id).id == message
  }

  lemma LiveIsLiveFrom(h: History, message: string)
    requires Attested(h)
    ensures Live(h.runs, message) == LiveFrom(h, message)
  {
    forall id | id in h.runs ensures id in Live(h.runs, message) <==> id in LiveFrom(h, message) {
      RootIsOrigin(h, id);
      assert Told(h, id);
    }
  }

  ghost predicate SoundSource(h: History, attention: Attention) {
    || FromHuman(attention)
    || (attention.source.Some? && attention.source.value.causedBy.Some?
        && FromRun(h.births, attention, attention.source.value.causedBy.value))
  }

  /** The chain a Run for the attention extends, and the message it ends at. */
  ghost function Extended(h: History, attention: Attention): (seq<string>, string)
    requires Attested(h) && SoundSource(h, attention)
  {
    var source := attention.source.value;
    if FromHuman(attention) then ([], source.id)
    else ([source.causedBy.value] + Ancestors(h.runs, source.causedBy.value), Origin(h, source.causedBy.value).id)
  }

  /** The only source that is not found is a Run nobody created. */
  ghost predicate Unsound(h: History, attention: Attention, r: Result<Provenance>) {
    (r.Conflict? || r.NotFound?) && (r.NotFound? <==> FromNowhere(h, attention))
  }

  ghost predicate FromNowhere(h: History, attention: Attention) {
    attention.source.Some? && attention.source.value.author.Agent? &&
    attention.source.value.causedBy.Some? && attention.source.value.causedBy.value !in h.births
  }

  ghost predicate Decided(h: History, limits: Limits, attention: Attention, r: Result<Provenance>)
    requires Attested(h)
  {
    if SoundSource(h, attention) then
      var (chain, message) := Extended(h, attention);
      if |chain| > limits.maxDepth then r == CausalLimitExceeded("depth")
      else if |LiveFrom(h, message)| >= limits.maxNonTerminal then r == CausalLimitExceeded("nonTerminalRuns")
      else r == Ok(Provenance(message, attention.source.value.causedBy, |chain|))
    else Unsound(h, attention, r)
  }

  /** What the source says, in terms of how the Runs came about. */
  lemma ProvenanceIsSound(h: History, attention: Attention)
    requires Attested(h)
    ensures var r := ProvenanceOf(h.runs, attention);
      if SoundSource(h, attention) then
        var (chain, message) := Extended(h, attention);
        r == Ok(Provenance(message, attention.source.value.causedBy, |chain|))
      else Unsound(h, attention, r)
  {
    hide Attested, Origin, Ancestors, Forest, Told;
    RunsAreBorn(h);
    if attention.source.Some? && attention.source.value.causedBy.Some? {
      var p := attention.source.value.causedBy.value;
      if p in h.runs { RunIs(h, p); }
    }
  }

  lemma RunsAreBorn(h: History)
    requires Attested(h)
    ensures h.runs.Keys == h.births.Keys && Forest(h.runs)
  {
  }

  lemma RunIs(h: History, p: string)
    requires Attested(h) && p in h.runs && p in h.births && Forest(h.runs)
    ensures var r := h.runs[p];
      && r.place == h.births[p].attention.place && r.owner == h.births[p].owner
      && r.root == Origin(h, p).id && r.depth == |Ancestors(h.runs, p)|
  {
    RootIsOrigin(h, p);
    DepthIsChainLength(h.runs, p);
    assert Told(h, p);
  }

  lemma AdmissionDecides(h: History, limits: Limits, attention: Attention)
    requires Attested(h)
    ensures Decided(h, limits, attention, Admit(h.runs, Some(limits), attention))
  {
    hide Live, LiveFrom, Origin, Ancestors, Forest, ProvenanceOf, SoundSource, Extended;
    ProvenanceIsSound(h, attention);
    if SoundSource(h, attention) { LiveIsLiveFrom(h, Extended(h, attention).1); }
  }

  /** Over every run: an attention with a sound source is refused exactly when the chain it would extend is
      longer than allowed, or the tree that ends at its message already holds the allowed number of Runs that
      are not finished; otherwise the new Run continues that chain. Without a sound source it is refused for
      that reason. */
  lemma AdmittedExactly(limits: Limits, steps: seq<Step>, attention: Attention)
    requires Legal(Recorder(limits), Nothing, steps)
    ensures var h := After(Recorder(limits), Nothing, steps);
      Attested(h) && Decided(h, limits, attention, Admit(h.runs, Some(limits), attention))
  {
    EveryHistoryIsTrue(limits, steps);
    AdmissionDecides(After(Recorder(limits), Nothing, steps), limits, attention);
  }
}
