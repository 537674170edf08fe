/** Recovery stays inside the portable grammar: every smaller body is itself a fixed point of the
    projection, keeps the latest user message and the controls of the turn, and is shorter. */
module RecoverySafety {
  import opened Wrappers
  import opened Json
  import opened ToolRelationships
  import opened ReplayContent
  import opened ReplayProjection
  import opened ReplayGrammar
  import opened Recovery

  // ---- picking items

  lemma {:induction false} LatestFound(vs: seq<Json>, roles: set<Word>)
    ensures Latest(vs, roles) >= 0 ==> exists r <- roles :: IsMessageOf(vs[Latest(vs, roles)], r)
  {
    hide IsMessageOf;
    if vs != [] {
      LatestFound(vs[..|vs| - 1], roles);
    }
  }

  lemma LatestAppend(vs: seq<Json>, v: Json)
    ensures Latest(vs + [v], {User}) == if IsMessageOf(v, User) then |vs| else Latest(vs, {User})
  {
    LatestOne(vs, v, User);
  }

  lemma LatestItemAppend(vs: seq<Json>, v: Json)
    ensures LatestUserItem(vs + [v]) == if IsMessageOf(v, User) then Some(v) else LatestUserItem(vs)
  {
    hide IsMessageOf;
    LatestAppend(vs, v);
  }

  lemma ControlsAppend(vs: seq<Json>, v: Json)
    ensures ControlsOf(vs + [v]) == if IsControl(v) then ControlsOf(vs) + [v] else ControlsOf(vs)
  {
    assert (vs + [v])[..|vs|] == vs;
  }

  lemma {:induction false} PickPortable(c: Codec, vs: seq<Json>, keep: set<int>)
    requires AllPortable(c, vs)
    ensures AllPortable(c, Pick(vs, keep))
  {
    hide PortableItem;
    if vs != [] {
      PickPortable(c, vs[..|vs| - 1], keep);
    }
  }

  lemma {:induction false} PickControls(vs: seq<Json>, keep: set<int>)
    requires ControlIndices(vs) <= keep
    ensures ControlsOf(Pick(vs, keep)) == ControlsOf(vs)
  {
    hide IsControl;
    if vs != [] {
      var n := |vs| - 1;
      assert forall i :: 0 <= i < n ==> vs[..n][i] == vs[i];
      assert ControlIndices(vs[..n]) <= ControlIndices(vs);
      PickControls(vs[..n], keep);
      ControlsAppend(Pick(vs[..n], keep), vs[n]);
      assert IsControl(vs[n]) ==> n in ControlIndices(vs);
    }
  }

  lemma {:induction false} PickLatest(vs: seq<Json>, keep: set<int>)
    requires Latest(vs, {User}) in keep
    ensures LatestUserItem(Pick(vs, keep)) == LatestUserItem(vs)
  {
    hide IsMessageOf;
    if vs != [] {
      var n := |vs| - 1;
      assert vs == vs[..n] + [vs[n]];
      LatestAppend(vs[..n], vs[n]);
      LatestItemAppend(vs[..n], vs[n]);
      LatestItemAppend(Pick(vs[..n], keep), vs[n]);
      if !IsMessageOf(vs[n], User) {
        PickLatest(vs[..n], keep);
      }
    }
  }

  /** What compaction keeps: the controls before the cut, then everything after it. */
  lemma {:induction false} PickSuffix(vs: seq<Json>, start: nat)
    requires start <= |vs|
    ensures Pick(vs, RetainedIndices(vs, start)) == ControlsOf(vs[..start]) + vs[start..]
  {
    hide IsControl;
    if start == |vs| {
      assert vs[..start] == vs && vs[start..] == [];
      PickOnlyControls(vs);
    } else {
      var n := |vs| - 1;
      var us := vs[..n];
      assert forall i :: 0 <= i < n ==> us[i] == vs[i];
      PickAgrees(us, RetainedIndices(vs, start), RetainedIndices(us, start));
      PickSuffix(us, start);
      assert us[..start] == vs[..start] && us[start..] + [vs[n]] == vs[start..];
    }
  }

  lemma {:induction false} PickOnlyControls(vs: seq<Json>)
    ensures Pick(vs, RetainedIndices(vs, |vs|)) == ControlsOf(vs)
  {
    hide IsControl;
    if vs != [] {
      var n := |vs| - 1;
      var us := vs[..n];
      assert forall i :: 0 <= i < n ==> us[i] == vs[i];
      PickAgrees(us, RetainedIndices(vs, |vs|), RetainedIndices(us, n));
      PickOnlyControls(us);
    }
  }

  lemma {:induction false} PickAgrees(vs: seq<Json>, keep: set<int>, other: set<int>)
    requires forall i :: 0 <= i < |vs| ==> (i in keep <==> i in other)
    ensures Pick(vs, keep) == Pick(vs, other)
  {
    if vs != [] {
      PickAgrees(vs[..|vs| - 1], keep, other);
    }
  }

  // ---- items that take no part in tool relationships

  ghost predicate Standby(vs: seq<Json>) {
    forall i :: 0 <= i < |vs| ==> Bystander(SeeJson(vs[i]))
  }

  lemma StandbySound(vs: seq<Json>)
    requires Standby(vs)
    ensures Sound(SeeAll(vs))
  {
    hide IsCall, IsOutput;
    forall i | 0 <= i < |vs| ensures SoundAt(SeeAll(vs), i) {
      assert SeeAll(vs)[i] == SeeJson(vs[i]);
    }
  }

  lemma ControlStandsBy(v: Json)
    requires IsControl(v)
    ensures Bystander(SeeJson(v))
  {
  }

  lemma MessageStandsBy(v: Json, roles: set<Word>)
    requires exists r <- roles :: IsMessageOf(v, r)
    ensures Bystander(SeeJson(v))
  {
  }

  lemma {:induction false} ControlsStandBy(vs: seq<Json>)
    ensures Standby(ControlsOf(vs))
  {
    hide IsControl, Bystander;
    if vs != [] {
      ControlsStandBy(vs[..|vs| - 1]);
      if IsControl(vs[|vs| - 1]) {
        ControlStandsBy(vs[|vs| - 1]);
      }
    }
  }

  lemma {:induction false} PickStandsBy(vs: seq<Json>, keep: set<int>)
    requires forall i :: 0 <= i < |vs| && i in keep ==> Bystander(SeeJson(vs[i]))
    ensures Standby(Pick(vs, keep))
  {
    hide Bystander;
    if vs != [] {
      PickStandsBy(vs[..|vs| - 1], keep);
    }
  }

  /** Items that take no part leave the tracker's verdict on what follows them as it is. */
  lemma {:induction false} StandbyPrefix(bs: seq<Json>, vs: seq<Json>)
    requires Standby(bs)
    ensures Run(SeeAll(bs + vs)) == Run(SeeAll(vs))
    decreases |bs| + |vs|
  {
    hide Observe, Bystander;
    if vs != [] {
      var n := |vs| - 1;
      StandbyPrefix(bs, vs[..n]);
      assert bs + vs == (bs + vs[..n]) + [vs[n]] && vs == vs[..n] + [vs[n]];
      SeeAllSplits(bs + vs[..n], vs[n]);
      SeeAllSplits(vs[..n], vs[n]);
      RunLast(SeeAll(bs + vs[..n]), SeeJson(vs[n]));
      RunLast(SeeAll(vs[..n]), SeeJson(vs[n]));
    } else if bs != [] {
      var n := |bs| - 1;
      StandbyPrefix(bs[..n], []);
      assert bs[..n] + [] == bs[..n] && bs + [] == bs[..n] + [bs[n]];
      SeeAllSplits(bs[..n], bs[n]);
      RunLast(SeeAll(bs[..n]), SeeJson(bs[n]));
      NothingWalked();
      BystanderUnseen(Fresh, SeeJson(bs[n]));
    }
  }

  lemma RunLast(xs: seq<Sighting>, x: Sighting)
    ensures Run(xs + [x]) ==
      if Run(xs).None? then None
      else if Observe(Run(xs).value, x).1 == NoIssue then Some(Observe(Run(xs).value, x).0)
      else None
  {
    assert (xs + [x])[..|xs|] == xs;
  }

  // ---- bodies

  lemma WithInputPortable(c: Codec, o: Item, vs: seq<Json>)
    requires PortableBody(c, o) && PortableList(c, vs)
    ensures PortableBody(c, WithInput(o, vs))
  {
    hide PortableList, ValidInclude;
  }

  /** A body keeps the turn when it keeps every control in order and ends on the same user message. */
  ghost predicate KeepsTurn(vs: seq<Json>, ys: seq<Json>) {
    ControlsOf(ys) == ControlsOf(vs) && LatestUserItem(ys) == LatestUserItem(vs) && LatestUserItem(vs).Some?
  }

  lemma CompactedList(c: Codec, vs: seq<Json>, start: nat)
    requires AllPortable(c, vs) && start <= Latest(vs, {User}) && Sound(SeeAll(vs[start..]))
    ensures var ys := Pick(vs, RetainedIndices(vs, start)); PortableList(c, ys) && KeepsTurn(vs, ys)
  {
    hide AllPortable, Sound, IsControl, Pick, ControlsOf, Standby;
    var keep := RetainedIndices(vs, start);
    var ys := Pick(vs, keep);
    PickPortable(c, vs, keep);
    PickControls(vs, keep);
    PickLatest(vs, keep);
    PickSuffix(vs, start);
    ControlsStandBy(vs[..start]);
    StandbyPrefix(ControlsOf(vs[..start]), vs[start..]);
    TrackerAgrees(SeeAll(vs[start..]));
    TrackerAgrees(SeeAll(ys));
  }

  /** A cut body is a fixed point of the projection, keeps the turn and is shorter than the request. */
  lemma CompactionCloses(c: Codec, o: Item, rawSize: nat, budget: int, start: int)
    requires CodecOk(c) && PortableBody(c, o) && rawSize >= 2
    requires Recoverable(o, 2) && Bounded(rawSize, budget).Some?
    requires FirstWithin(c, o, start, Bounded(rawSize, budget).value)
             || Smallest(c, o, start, rawSize, |o[Input].elems| + 1)
    ensures Sanitize(c, Some(Obj(Compacted(o, start)))) == Clean
    ensures KeepsTurn(o[Input].elems, Compacted(o, start)[Input].elems)
    ensures CompactedSize(c, o, start) < rawSize
  {
    hide CodecOk, PortableList, Recoverable, Sound, KeepsTurn, Pick;
    RecoverableInput(o, 2);
    var vs := o[Input].elems;
    InputIsPortable(c, o);
    CompactedList(c, vs, start);
    WithInputPortable(c, o, Pick(vs, RetainedIndices(vs, start)));
    CleanIffPortable(c, Compacted(o, start));
    BudgetShrinks(rawSize, budget);
  }

  lemma InputIsPortable(c: Codec, o: Item)
    requires PortableBody(c, o) && Get(o, Input).Arr?
    ensures PortableList(c, o[Input].elems) && AllPortable(c, o[Input].elems)
  {
    hide AllPortable, Sound;
  }

  lemma DialoguePicks(vs: seq<Json>)
    requires Latest(vs, {User}) >= 0
    ensures forall i :: 0 <= i < |vs| && i in DialogueIndices(vs) ==> Bystander(SeeJson(vs[i]))
  {
    hide IsControl, Bystander, IsMessageOf;
    var user := Latest(vs, {User});
    var instructions := Latest(vs[..user + 1], {Developer, System});
    LatestFound(vs, {User});
    MessageStandsBy(vs[user], {User});
    LatestFound(vs[..user + 1], {Developer, System});
    if instructions >= 0 {
      MessageStandsBy(vs[instructions], {Developer, System});
    }
    forall i | 0 <= i < |vs| && i in ControlIndices(vs) ensures Bystander(SeeJson(vs[i])) {
      ControlStandsBy(vs[i]);
    }
  }

  /** The final dialogue is a fixed point of the projection and keeps the turn; the recovery itself
      refuses one that is not shorter. */
  lemma DialogueCloses(c: Codec, o: Item)
    requires CodecOk(c) && PortableBody(c, o) && Recoverable(o, 1)
    ensures Sanitize(c, Some(Obj(DialogueBody(o)))) == Clean
    ensures KeepsTurn(o[Input].elems, DialogueBody(o)[Input].elems)
  {
    hide CodecOk, AllPortable, Sound, Pick, IsControl, Latest, Standby, PortableBody, Bystander;
    RecoverableInput(o, 1);
    InputIsPortable(c, o);
    var vs := o[Input].elems;
    var keep := DialogueIndices(vs);
    var ys := Pick(vs, keep);
    DialoguePicks(vs);
    PickStandsBy(vs, keep);
    StandbySound(ys);
    PickPortable(c, vs, keep);
    PickControls(vs, keep);
    PickLatest(vs, keep);
    WithInputPortable(c, o, ys);
    CleanIffPortable(c, DialogueBody(o));
  }

  // ---- input recovery

  function NonEmptyOf(ts: seq<Str>): seq<Str> {
    if ts == [] then []
    else if Empty(ts[|ts| - 1]) then NonEmptyOf(ts[..|ts| - 1])
    else NonEmptyOf(ts[..|ts| - 1]) + [ts[|ts| - 1]]
  }

  ghost predicate TextsOnly(c: Codec, ts: seq<Json>) {
    forall i ::
      0 <= i < |ts| ==> PortableBlock(c, ts[i]) && PortableText(ts[i].fields) && NonEmptyText(ts[i].fields[TextField])
  }

  lemma {:induction false} TextBlocksKeep(c: Codec, vs: seq<Json>)
    requires forall i :: 0 <= i < |vs| ==> PortableBlock(c, vs[i])
    ensures TextBlocks(vs).Ok? && TextsOnly(c, TextBlocks(vs).value)
    ensures AllSaid(TextBlocks(vs).value) == NonEmptyOf(AllSaid(vs))
  {
    hide PortableBlock, PortableText, Said, IsTextBlock, TextItem, NonEmptyOf, TextsOnly, AllSaid, TextBlocks;
    if vs == [] {
      NothingSaid(c);
    } else {
      var n := |vs| - 1;
      assert vs == vs[..n] + [vs[n]];
      TextBlocksKeep(c, vs[..n]);
      BlockSays(c, vs[n]);
      SaidAppend(vs[..n], vs[n]);
      TextBlocksAppend(vs[..n], vs[n]);
      if IsTextBlock(vs[n].fields) {
        TextKept(c, vs[..n], vs[n]);
      } else {
        assert AllSaid(vs[..n]) + [] == AllSaid(vs[..n]);
      }
    }
  }

  lemma TextBlocksAppend(vs: seq<Json>, v: Json)
    requires TextBlocks(vs).Ok? && v.Obj? && !Unhashable(Get(v.fields, Type))
    ensures TextBlocks(vs + [v]) ==
      if IsTextBlock(v.fields) && NonEmptyText(Get(v.fields, TextField))
      then Ok(TextBlocks(vs).value + [Obj(TextItem(v.fields[TextField].s))])
      else TextBlocks(vs)
  {
    hide IsTextBlock, TextItem, Unhashable;
    assert (vs + [v])[..|vs|] == vs;
  }

  lemma TextKept(c: Codec, vs: seq<Json>, v: Json)
    requires v.Obj? && IsTextBlock(v.fields) && Get(v.fields, TextField).JStr? && Said(v) == [v.fields[TextField].s]
    requires TextBlocks(vs).Ok? && TextsOnly(c, TextBlocks(vs).value)
    requires AllSaid(TextBlocks(vs).value) == NonEmptyOf(AllSaid(vs))
    ensures var s := v.fields[TextField].s;
      && (Empty(s) ==> NonEmptyOf(AllSaid(vs) + [s]) == AllSaid(TextBlocks(vs).value))
      && (!Empty(s) ==> TextsOnly(c, TextBlocks(vs).value + [Obj(TextItem(s))])
                        && NonEmptyOf(AllSaid(vs) + [s]) == AllSaid(TextBlocks(vs).value + [Obj(TextItem(s))]))
  {
    hide PortableBlock, PortableText, Said, IsTextBlock, TextItem, NonEmptyOf, AllSaid, TextBlocks;
    var s := v.fields[TextField].s;
    NonEmptyAppend(AllSaid(vs), s);
    TextItemSays(c, s);
    SaidAppend(TextBlocks(vs).value, Obj(TextItem(s)));
  }

  lemma NothingSaid(c: Codec)
    ensures NonEmptyOf([]) == [] && AllSaid([]) == [] && TextBlocks([]) == Ok([]) && TextsOnly(c, [])
  {
  }

  /** A portable block says at most one text, and a text block is one that says something. */
  lemma BlockSays(c: Codec, v: Json)
    requires PortableBlock(c, v)
    ensures v.Obj? && !Unhashable(Get(v.fields, Type))
    ensures IsTextBlock(v.fields) ==> Get(v.fields, TextField).JStr? && Said(v) == [v.fields[TextField].s]
    ensures !IsTextBlock(v.fields) ==> Said(v) == []
  {
  }

  lemma TextItemSays(c: Codec, s: Str)
    ensures PortableBlock(c, Obj(TextItem(s))) && PortableText(TextItem(s)) && Said(Obj(TextItem(s))) == [s]
    ensures TextField in TextItem(s) && TextItem(s)[TextField] == JStr(s)
  {
  }

  lemma SaidAppend(vs: seq<Json>, v: Json)
    ensures AllSaid(vs + [v]) == AllSaid(vs) + Said(v)
  {
    assert (vs + [v])[..|vs|] == vs;
  }

  lemma NonEmptyAppend(ts: seq<Str>, s: Str)
    ensures NonEmptyOf(ts + [s]) == if Empty(s) then NonEmptyOf(ts) else NonEmptyOf(ts) + [s]
  {
    assert (ts + [s])[..|ts|] == ts;
  }

  /** What input recovery leaves of a portable message: the same speaker with its text alone. */
  ghost predicate TextOf(v: Json, w: Json) {
    && v.Obj? && w.Obj? && Role in v.fields && Content in v.fields
    && w.fields.Keys == {Type, Role, Content} && Is(w.fields[Type], MessageType) && w.fields[Role] == v.fields[Role]
    && (v.fields[Content].JStr? ==> w.fields[Content] == v.fields[Content])
    && (v.fields[Content].Arr? ==>
        w.fields[Content].Arr? && AllSaid(w.fields[Content].elems) == NonEmptyOf(AllSaid(v.fields[Content].elems)))
  }

  lemma MessageRecast(c: Codec, v: Json, role: Word)
    requires v.Obj? && PortableItem(c, v.fields) && IsMessageOf(v, role) && role in {User, Developer, System}
    ensures Recast(v).Ok?
    ensures Recast(v).value.Some? ==>
      var w := Recast(v).value.value;
      TextOf(v, w) && PortableItem(c, w.fields) && IsMessageOf(w, role) && Bystander(SeeJson(w))
  {
    hide PortableAgentMessage, PortableCall, PortableOutput, PortableToolCatalog, PortableBlock, PortableText,
         TextBlocks, AllSaid, NonEmptyOf;
    Kinds(c, v.fields);
    var content := v.fields[Content];
    if content.Arr? {
      TextBlocksKeep(c, content.elems);
    }
  }

  /** Each retained item is a control as it was or a message reduced to its text. */
  ghost predicate Recasts(c: Codec, vs: seq<Json>, keep: set<int>) {
    forall i :: 0 <= i < |vs| && i in keep ==> IsControl(vs[i]) || exists r <- {User, Developer, System} ::
      IsMessageOf(vs[i], r)
  }

  lemma RecastStep(c: Codec, v: Json)
    requires v.Obj? && PortableItem(c, v.fields)
    requires IsControl(v) || exists r <- {User, Developer, System} :: IsMessageOf(v, r)
    ensures Recast(v).Ok?
    ensures Recast(v).value.Some? ==>
      var w := Recast(v).value.value;
      && w.Obj? && PortableItem(c, w.fields) && Bystander(SeeJson(w))
      && (IsControl(v) ==> w == v) && (IsControl(w) <==> IsControl(v))
      && (IsMessageOf(w, User) <==> IsMessageOf(v, User)) && (IsMessageOf(v, User) ==> TextOf(v, w))
  {
    hide PortableItem, Bystander, TextOf, Recast;
    if IsControl(v) {
      ControlRecast(v);
      ControlStandsBy(v);
    } else {
      var r :| r in {User, Developer, System} && IsMessageOf(v, r);
      MessageRecast(c, v, r);
    }
  }

  lemma ControlRecast(v: Json)
    requires IsControl(v)
    ensures Recast(v) == Ok(Some(v))
  {
  }

  lemma {:induction false} RecastCloses(c: Codec, vs: seq<Json>, keep: set<int>)
    requires AllPortable(c, vs) && Recasts(c, vs, keep)
    ensures RecastAll(vs, keep).Ok?
    ensures RecastAll(vs, keep).value.Some? ==>
      AllPortable(c, RecastAll(vs, keep).value.value) && Standby(RecastAll(vs, keep).value.value)
  {
    hide PortableItem, Bystander, TextOf, Recast, IsControl, IsMessageOf;
    if vs != [] {
      var n := |vs| - 1;
      assert forall i :: 0 <= i < n ==> vs[..n][i] == vs[i];
      RecastCloses(c, vs[..n], keep);
      if n in keep {
        RecastStep(c, vs[n]);
      }
    }
  }

  lemma {:induction false} RecastControls(c: Codec, vs: seq<Json>, keep: set<int>)
    requires AllPortable(c, vs) && Recasts(c, vs, keep) && ControlIndices(vs) <= keep
    ensures RecastAll(vs, keep).Ok? && RecastAll(vs, keep).value.Some? ==>
      ControlsOf(RecastAll(vs, keep).value.value) == ControlsOf(vs)
  {
    hide PortableItem, Bystander, TextOf, Recast, IsControl, IsMessageOf;
    if vs != [] && RecastAll(vs, keep).Ok? && RecastAll(vs, keep).value.Some? {
      var n := |vs| - 1;
      assert forall i :: 0 <= i < n ==> vs[..n][i] == vs[i];
      assert ControlIndices(vs[..n]) <= ControlIndices(vs);
      RecastControls(c, vs[..n], keep);
      assert IsControl(vs[n]) ==> n in ControlIndices(vs);
      if n in keep {
        RecastStep(c, vs[n]);
        ControlsAppend(RecastAll(vs[..n], keep).value.value, Recast(vs[n]).value.value);
      }
    }
  }

  lemma {:induction false} RecastUser(c: Codec, vs: seq<Json>, keep: set<int>)
    requires AllPortable(c, vs) && Recasts(c, vs, keep) && Latest(vs, {User}) in keep && Latest(vs, {User}) >= 0
    ensures RecastAll(vs, keep).Ok? && RecastAll(vs, keep).value.Some? ==>
      var w := LatestUserItem(RecastAll(vs, keep).value.value);
      w.Some? && TextOf(LatestUserItem(vs).value, w.value)
  {
    hide PortableItem, Bystander, TextOf, Recast, IsControl, IsMessageOf;
    if vs != [] && RecastAll(vs, keep).Ok? && RecastAll(vs, keep).value.Some? {
      var n := |vs| - 1;
      assert forall i :: 0 <= i < n ==> vs[..n][i] == vs[i];
      assert vs == vs[..n] + [vs[n]];
      LatestAppend(vs[..n], vs[n]);
      LatestItemAppend(vs[..n], vs[n]);
      if !IsMessageOf(vs[n], User) {
        RecastUser(c, vs[..n], keep);
      }
      if n in keep {
        RecastStep(c, vs[n]);
        LatestItemAppend(RecastAll(vs[..n], keep).value.value, Recast(vs[n]).value.value);
      }
    }
  }

  lemma CurrentRecasts(c: Codec, vs: seq<Json>)
    ensures Recasts(c, vs, CurrentIndices(vs))
  {
    hide IsControl, IsMessageOf;
    forall i | 0 <= i < |vs| && i in LatestIndices(vs) ensures exists r <- {User, Developer, System} ::
      IsMessageOf(vs[i], r) {
      var r :| r in {System, Developer, User} && Latest(vs, {r}) >= 0 && Latest(vs, {r}) == i;
      LatestFound(vs, {r});
      assert IsMessageOf(vs[i], r);
    }
  }

  /** The body built for a rejected input is a fixed point of the projection, keeps every control
      and the text of the latest user message, and is shorter than the request and within budget. */
  lemma InputRecoveryCloses(c: Codec, o: Item, rawSize: nat, budget: int)
    requires CodecOk(c) && PortableBody(c, o)
    ensures BuildRecovery(c, o, rawSize, budget).Ok?
    ensures BuildRecovery(c, o, rawSize, budget).value.Some? ==>
      var body := BuildRecovery(c, o, rawSize, budget).value.value;
      && Sanitize(c, Some(Obj(body))) == Clean
      && c.size(Obj(body)) < rawSize && c.size(Obj(body)) <= budget
      && ControlsOf(body[Input].elems) == ControlsOf(o[Input].elems)
      && LatestUserItem(o[Input].elems).Some? && LatestUserItem(body[Input].elems).Some?
      && TextOf(LatestUserItem(o[Input].elems).value, LatestUserItem(body[Input].elems).value)
  {
    hide CodecOk, AllPortable, Sound, Recasts, Standby, TextOf, ControlsOf, Unbound, PortableBody, RecastAll, Latest,
         SeeAll, Trimmed, Sanitize;
    if Get(o, Input).Arr? {
      var vs := o[Input].elems;
      var keep := CurrentIndices(vs);
      InputIsPortable(c, o);
      CurrentRecasts(c, vs);
      RecastCloses(c, vs, keep);
      if Latest(vs, {User}) >= 0 && RecastAll(vs, keep).value.Some? {
        var ys := RecastAll(vs, keep).value.value;
        StandbySound(ys);
        RecastControls(c, vs, keep);
        RecastUser(c, vs, keep);
        ReplacedInput(c, o, ys);
        CleanIffPortable(c, Unbound(o)[Input := Arr(ys)]);
      }
    }
  }

  lemma ReplacedInput(c: Codec, o: Item, ys: seq<Json>)
    requires PortableBody(c, o) && PortableList(c, ys)
    ensures PortableBody(c, Unbound(o)[Input := Arr(ys)])
  {
    hide PortableList, ValidInclude, Unbound;
    UnboundFixed(o);
  }
}
