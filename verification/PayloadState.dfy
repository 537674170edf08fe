/** The durable state of one installation and the writes its collaborators make: the journal and
    transaction directory, the generation store and its selector, the command link, and the
    installed record. Every write is atomic; removing a directory passes through partial states. */
module PayloadState {
  import opened Wrappers

  /** A generation name (a random 32-digit hexadecimal identifier). */
  type Id = nat

  datatype Version = Version(major: nat, minor: nat, patch: nat)

  predicate Newer(a: Version, b: Version) {
    || a.major > b.major
    || (a.major == b.major && a.minor > b.minor)
    || (a.major == b.major && a.minor == b.minor && a.patch > b.patch)
  }

  /** The verified identity of one payload. */
  datatype Payload = Payload(version: Version, receipt: nat)

  datatype Generation = Partial | Complete(payload: Payload)

  datatype Selection = Selection(active: Id, predecessor: Option<Id>)

  /** Where a command link may point: the stable install root, a generation, or somewhere else. */
  datatype Target = Stable | Exec(id: Id) | Elsewhere(path: nat)

  datatype Link = Link(target: Target, inode: nat)

  /** The rollback directory; `Saved(None)` records that no command link existed. */
  datatype Rollback = NoRollback | EmptyRollback | Saved(link: Option<Link>)

  datatype Root = NoRoot | Root(rollback: Rollback)

  datatype Phase = Prepared | Materialized | Activated

  datatype JournalState = Working(phase: Phase) | RecoveryRequired(failed: Phase) | Closed | RolledBack | Finalized

  datatype Journal = Journal(tx: Id, payload: Payload, isFresh: bool, prior: Option<Selection>, state: JournalState)
  {
    predicate Terminal() {
      state.Closed? || state.RolledBack? || state.Finalized?
    }

    function Phase(): Phase
      requires !Terminal()
    {
      if state.Working? then state.phase else state.failed
    }

    /** A reverse transition targets the selected predecessor itself. */
    predicate Reuses() {
      prior.Some? && prior.value.predecessor == Some(tx)
    }

    function Candidate(): Selection {
      Selection(tx, if prior.Some? then Some(prior.value.active) else None)
    }
  }

  datatype Installed = Installed(tx: Id, payload: Payload)

  datatype Durable = Durable(
    journal: Option<Journal>,
    root: Root,
    store: Option<map<Id, Generation>>,
    selector: Option<Selection>,
    command: Option<Link>,
    installed: Option<Installed>)

  // ---- reading

  function Gens(d: Durable): map<Id, Generation> {
    if d.store.Some? then d.store.value else map[]
  }

  predicate IsComplete(d: Durable, id: Id) {
    id in Gens(d) && Gens(d)[id].Complete?
  }

  function Names(sel: Selection): set<Id> {
    {sel.active} + if sel.predecessor.Some? then {sel.predecessor.value} else {}
  }

  function SelectedNames(sel: Option<Selection>): set<Id> {
    if sel.Some? then Names(sel.value) else {}
  }

  /** The selector can be read: every selected generation is a directory. */
  predicate SelectionReadable(d: Durable) {
    SelectedNames(d.selector) <= Gens(d).Keys
  }

  predicate JournalReadable(d: Durable) {
    d.journal.Some? && (d.root.Root? || d.journal.value.Terminal())
  }

  predicate ControlReadable(d: Durable) {
    forall id :: id in SelectedNames(d.selector) ==> IsComplete(d, id)
  }

  /** The newest selected generation owns lifecycle control; a tie goes to the active one. */
  function ControlTarget(gens: map<Id, Generation>, sel: Option<Selection>): Target
    requires forall id :: id in SelectedNames(sel) ==> id in gens && gens[id].Complete?
  {
    if sel.None? then Stable
    else if sel.value.predecessor.None? then Exec(sel.value.active)
    else
      var a, p := sel.value.active, sel.value.predecessor.value;
      if Newer(gens[p].payload.version, gens[a].payload.version) then Exec(p) else Exec(a)
  }

  function Control(d: Durable): Target
    requires ControlReadable(d)
  {
    ControlTarget(Gens(d), d.selector)
  }

  datatype Ownership = Absent | Owned | Foreign

  function Classify(command: Option<Link>, target: Target): Ownership {
    if command.None? then Absent else if command.value.target == target then Owned else Foreign
  }

  /** The link on disk is the very link that the snapshot recorded, by target and inode. */
  predicate MatchesSnapshot(command: Option<Link>, snapshot: Option<Link>) {
    snapshot.Some? && command == snapshot
  }

  // ---- writing: the states passed through, in order, and whether the operation went through

  datatype Writes = Writes(states: seq<Durable>, ok: bool)

  const Nothing := Writes([], true)
  const Fails := Writes([], false)

  function One(d: Durable): Writes {
    Writes([d], true)
  }

  function Then(a: Writes, b: Writes): Writes {
    Writes(a.states + b.states, b.ok)
  }

  function Last(d: Durable, w: Writes): Durable {
    if w.states == [] then d else w.states[|w.states| - 1]
  }

  predicate CanSelect(d: Durable, sel: Selection) {
    && IsComplete(d, sel.active)
    && (sel.predecessor.Some? ==> IsComplete(d, sel.predecessor.value) && sel.predecessor.value != sel.active)
  }

  function Select(d: Durable, sel: Selection): Writes {
    if CanSelect(d, sel) then One(d.(selector := Some(sel))) else Fails
  }

  function ClearSelector(d: Durable): Writes {
    One(d.(selector := None))
  }

  /** Remove one exact unselected generation, then the store if nothing is left in it. */
  function RemoveGeneration(d: Durable, id: Id): Writes {
    if !SelectionReadable(d) || id in SelectedNames(d.selector) then Fails
    else
      var a := if id in Gens(d)
               then Writes([d.(store := Some(Gens(d)[id := Partial])), d.(store := Some(Gens(d) - {id}))], true)
               else Nothing;
      var e := Last(d, a);
      Then(a, if e.store == Some(map[]) then One(e.(store := None)) else Nothing)
  }

  /** Remove every generation that is not kept, in the order the directory lists them. */
  function Prune(d: Durable, keep: set<Id>, listing: seq<Id>): Writes
    decreases |listing|
  {
    if listing == [] then Nothing
    else if listing[0] in Gens(d) && listing[0] !in keep then
      var a := Writes([d.(store := Some(Gens(d)[listing[0] := Partial])),
                       d.(store := Some(Gens(d) - {listing[0]}))], true);
      Then(a, Prune(Last(d, a), keep, listing[1..]))
    else Prune(d, keep, listing[1..])
  }

  function Project(d: Durable, target: Target, snapshot: Option<Link>, inode: nat): Writes {
    if !(target.Exec? && IsComplete(d, target.id)) then Fails
    else match Classify(d.command, target)
      case Owned => Nothing
      case Foreign =>
        if MatchesSnapshot(d.command, snapshot) then One(d.(command := Some(Link(target, inode)))) else Fails
      case Absent => One(d.(command := Some(Link(target, inode))))
  }

  function Detach(d: Durable, target: Target, snapshot: Option<Link>): Writes {
    match Classify(d.command, target)
    case Absent => Nothing
    case Owned => One(d.(command := None))
    case Foreign => if MatchesSnapshot(d.command, snapshot) then One(d.(command := None)) else Fails
  }

  function Restore(d: Durable, target: Target, snapshot: Option<Link>, inode: nat): Writes {
    if MatchesSnapshot(d.command, snapshot) then Nothing
    else
      match Classify(d.command, target)
      case Foreign => Fails
      case Owned => Then(One(d.(command := None)), Relink(d.(command := None), snapshot, inode))
      case Absent => Relink(d, snapshot, inode)
  }

  function Relink(d: Durable, snapshot: Option<Link>, inode: nat): Writes {
    if snapshot.Some? then One(d.(command := Some(Link(snapshot.value.target, inode)))) else Nothing
  }

  function WriteJournal(d: Durable, j: Journal): Writes {
    One(d.(journal := Some(j)))
  }

  function RemoveRoot(d: Durable): Writes {
    match d.root
    case NoRoot => Nothing
    case Root(Saved(_)) =>
      Writes([d.(root := Root(EmptyRollback)), d.(root := Root(NoRollback)), d.(root := NoRoot)], true)
    case Root(EmptyRollback) => Writes([d.(root := Root(NoRollback)), d.(root := NoRoot)], true)
    case Root(NoRollback) => One(d.(root := NoRoot))
  }
}
