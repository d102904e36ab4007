/** How the recorder builds an activity row from its inputs (_build_activity_record in activity/recorder.py). */
module ActivityBuild {
  import opened Common
  import opened JsonbValues
  import opened ActivityChain
  import opened ActivityStorage

  datatype Taxonomy = Taxonomy(
    domainArea: string, targetType: string, actionFamily: string, action: string, lifecyclePhase: string,
    outcome: string, durability: string, evidenceClass: Option<string>, eventLabel: string)

  type Dict = map<string, Json>

  datatype Reconstruction = Reconstruction(
    targetId: string, primaryTarget: Dict, relatedTargets: seq<Dict>,
    snapshotRef: Option<Json>, diffRef: Option<Json>, versionRefs: seq<Json>, metadata: Dict)

  /** What a bound interaction contributes; its annotations are the metadata entries it adds when they are missing. */
  datatype InteractionLink = InteractionLink(
    interactionId: string, parentActivityId: Option<string>, projectId: Option<string>,
    retentionPolicyId: Option<string>, annotations: Dict)

  datatype Input = Input(
    activityId: string, taxonomy: Taxonomy, reconstruction: Reconstruction, interaction: Option<InteractionLink>,
    actorOverride: Option<Dict>, parentActivityId: Option<string>, sequence: Option<int>,
    occurredAt: Option<Timestamp>, metadata: Dict, scope: string, nowMicros: int)

  function OptionalText(value: Option<string>): Value {
    match value
    case Some(text) => Text(text)
    case None => Null
  }

  function JsonOf(dict: Dict): Value {
    Native(JObj(dict))
  }

  function SetDefault(dict: Dict, key: string, value: Json): Dict {
    if key in dict then dict else dict[key := value]
  }

  function AddMissing(dict: Dict, extra: Dict): Dict {
    extra + dict
  }

  /** Later metadata wins over the reconstruction's; the scope, the annotations and the sequence only fill gaps. */
  function RecordMetadata(input: Input): Dict {
    var merged := SetDefault(input.reconstruction.metadata + input.metadata, "record_scope", JStr(input.scope));
    var annotated :=
      if input.interaction.Some? then AddMissing(merged, input.interaction.value.annotations) else merged;
    if input.sequence.Some? then SetDefault(annotated, "sequence", JNum(input.sequence.value)) else annotated
  }

  function ReconstructionRefsOf(r: Reconstruction): Value {
    var snapshot: Dict := if r.snapshotRef.Some? then map["snapshot_ref" := r.snapshotRef.value] else map[];
    var diff: Dict := if r.diffRef.Some? then map["diff_ref" := r.diffRef.value] else map[];
    var versions: Dict := if r.versionRefs != [] then map["version_refs" := JArr(r.versionRefs)] else map[];
    var refs := snapshot + diff + versions;
    if refs == map[] then Null else JsonOf(refs)
  }

  function TargetList(targets: seq<Dict>): seq<Json> {
    seq(|targets|, i requires 0 <= i < |targets| => JObj(targets[i]))
  }

  /** One column of the row. */
  function Column(input: Input, field: Field): Value {
    var t, r, link := input.taxonomy, input.reconstruction, input.interaction;
    match field
    case ActivityId => Text(input.activityId)
    case InteractionId => if link.Some? then Text(link.value.interactionId) else Null
    case ParentActivityId =>
      if input.parentActivityId.GetOr("") != "" then Text(input.parentActivityId.GetOr(""))
      else if link.Some? then OptionalText(link.value.parentActivityId) else Null
    case ProjectId => if link.Some? then OptionalText(link.value.projectId) else Null
    case DomainArea => Text(t.domainArea)
    case TargetType => Text(t.targetType)
    case TargetId => Text(r.targetId)
    case ActionFamily => Text(t.actionFamily)
    case Action => Text(t.action)
    case LifecyclePhase => Text(t.lifecyclePhase)
    case Outcome => Text(t.outcome)
    case Durability => Text(t.durability)
    case EvidenceClass => OptionalText(t.evidenceClass)
    case EventLabel => Text(t.eventLabel)
    case PrimaryTarget => JsonOf(r.primaryTarget)
    case RelatedTargets => if r.relatedTargets == [] then Null else Native(JArr(TargetList(r.relatedTargets)))
    case ActorOverride => if input.actorOverride.Some? then JsonOf(input.actorOverride.value) else Null
    case ReconstructionRefs => ReconstructionRefsOf(r)
    case Metadata => JsonOf(RecordMetadata(input))
    case RetentionPolicyId => if link.Some? then OptionalText(link.value.retentionPolicyId) else Null
    case RetentionExpiresAt => Null
    case OccurredAt => Time(input.occurredAt.GetOr(Timestamp(input.nowMicros, Some(0))))
  }

  function BuildActivityRecord(input: Input): Record {
    map field: Field :: Column(input, field)
  }

  /** The caller's part in the stability of the hash: the instant, and the numbers in its JSON. */
  predicate InputSurvives(input: Input) {
    && (input.occurredAt.Some? ==> input.occurredAt.value.offset == Some(0))
    && forall field: Field :: Column(input, field).Native? ==> NumbersSurvive(Column(input, field).json)
  }

  /**
    Every record the recorder builds has the shape and the required columns that storage asks for. If the
    server takes it, its hash is stable exactly when the caller gave no instant or one in UTC, and no float
    that jsonb writes differently.
   */
  lemma BuiltRecordIsStorable(lib: Library, input: Input, key: string, chainSeq: int, prev: Option<string>)
    requires Assumed(lib) && CollisionFree(lib)
    ensures var record := BuildActivityRecord(input);
      && RecorderShape(record) && HasRequired(record)
      && (ServerTakes(lib, record) ==>
            (RecordHash(lib, StoredRecord(lib, record), key, chainSeq, prev)
              == RecordHash(lib, record, key, chainSeq, prev)
             <==> InputSurvives(input)))
  {
    var record := BuildActivityRecord(input);
    BuiltShape(input);
    TakenIffStorable(lib, record);
    if Storable(record) {
      HashStableIff(lib, record, key, chainSeq, prev);
    }
  }

  lemma BuiltShape(input: Input)
    ensures var record := BuildActivityRecord(input);
      RecorderShape(record) && HasRequired(record) && (Survives(record) <==> InputSurvives(input))
  {
    var record := BuildActivityRecord(input);
    forall field: Field
      ensures ColumnShape(field, Get(record, field)) && Get(record, field) == Column(input, field)
      ensures RequiredColumn(field) ==> Get(record, field) != Null
      ensures Get(record, field).Time? ==> field == OccurredAt
    {
      BuiltColumn(input, field);
    }
    assert Get(record, OccurredAt) == Time(input.occurredAt.GetOr(Timestamp(input.nowMicros, Some(0))));
    if Survives(record) {
      assert ColumnSurvives(Get(record, OccurredAt));
      forall field: Field | Column(input, field).Native?
        ensures NumbersSurvive(Column(input, field).json)
      {
        assert ColumnSurvives(Get(record, field));
      }
    }
  }

  lemma BuiltColumn(input: Input, field: Field)
    ensures var value := Get(BuildActivityRecord(input), field);
      ColumnShape(field, value) && (RequiredColumn(field) ==> value != Null) && (value.Time? ==> field == OccurredAt)
  {}

  // ---- What each column carries ----

  /** The columns that say what was done and to what. */
  lemma ActionCarried(input: Input)
    ensures var record, t := BuildActivityRecord(input), input.taxonomy;
      && Get(record, ActivityId) == Text(input.activityId)
      && Get(record, DomainArea) == Text(t.domainArea) && Get(record, TargetType) == Text(t.targetType)
      && Get(record, TargetId) == Text(input.reconstruction.targetId)
      && Get(record, ActionFamily) == Text(t.actionFamily) && Get(record, Action) == Text(t.action)
  {}

  /** The columns that say how it went and how it is filed. */
  lemma FilingCarried(input: Input)
    ensures var record, t := BuildActivityRecord(input), input.taxonomy;
      && Get(record, LifecyclePhase) == Text(t.lifecyclePhase) && Get(record, ActivityChain.Outcome) == Text(t.outcome)
      && Get(record, Durability) == Text(t.durability) && Get(record, EventLabel) == Text(t.eventLabel)
      && Get(record, EvidenceClass) == (if t.evidenceClass.Some? then Text(t.evidenceClass.value) else Null)
  {}

  /** The columns that come from the interaction; a parent named by the caller wins over the interaction's. */
  lemma LinkCarried(input: Input)
    ensures var record, link := BuildActivityRecord(input), input.interaction;
      && Get(record, InteractionId) == (if link.Some? then Text(link.value.interactionId) else Null)
      && Get(record, ProjectId)
         == (if link.Some? && link.value.projectId.Some? then Text(link.value.projectId.value) else Null)
      && Get(record, RetentionPolicyId)
         == (if link.Some?
           && link.value.retentionPolicyId.Some? then Text(link.value.retentionPolicyId.value) else Null)
      && Get(record, RetentionExpiresAt) == Null
      && Get(record, ParentActivityId)
         == (if input.parentActivityId.Some?
           && input.parentActivityId.value != "" then Text(input.parentActivityId.value)
             else if link.Some? && link.value.parentActivityId.Some? then Text(link.value.parentActivityId.value)
             else Null)
  {}

  /** The JSON columns and the time: empty lists and dictionaries of references are null, the clock is in UTC. */
  lemma StructuresCarried(input: Input)
    ensures var record, r := BuildActivityRecord(input), input.reconstruction;
      && Get(record, PrimaryTarget) == Native(JObj(r.primaryTarget))
      && (r.relatedTargets == [] ==> Get(record, RelatedTargets) == Null)
      && (r.relatedTargets != [] ==>
            && Get(record, RelatedTargets).Native? && Get(record, RelatedTargets).json.JArr?
            && |Get(record, RelatedTargets).json.items| == |r.relatedTargets|
            && forall i :: 0 <= i < |r.relatedTargets| ==>
                 Get(record, RelatedTargets).json.items[i] == JObj(r.relatedTargets[i]))
      && Get(record, ActorOverride)
         == (if input.actorOverride.Some? then Native(JObj(input.actorOverride.value)) else Null)
      && Get(record, OccurredAt)
         == Time(if input.occurredAt.Some? then input.occurredAt.value else Timestamp(input.nowMicros, Some(0)))
      && Get(record, Metadata).Native? && Get(record, Metadata).json.JObj?
  {}

  /** One entry of a dictionary, if it is there. */
  function Entry(dict: Dict, key: string): Option<Json> {
    if key in dict then Some(dict[key]) else None
  }

  /** The references kept: a snapshot, a diff, versions, each only if given; nothing at all if none is. */
  lemma ReferencesCarried(input: Input, key: string)
    ensures var refs, r := Get(BuildActivityRecord(input), ReconstructionRefs), input.reconstruction;
      if r.snapshotRef.None? && r.diffRef.None? && r.versionRefs == [] then refs == Null
      else
        && refs.Native? && refs.json.JObj?
        && Entry(refs.json.fields, key)
           == (if key == "snapshot_ref" then r.snapshotRef
               else if key == "diff_ref" then r.diffRef
               else if key == "version_refs" && r.versionRefs != [] then Some(JArr(r.versionRefs))
               else None)
  {
    var r := input.reconstruction;
    var snapshot: Dict := if r.snapshotRef.Some? then map["snapshot_ref" := r.snapshotRef.value] else map[];
    var diff: Dict := if r.diffRef.Some? then map["diff_ref" := r.diffRef.value] else map[];
    var versions: Dict := if r.versionRefs != [] then map["version_refs" := JArr(r.versionRefs)] else map[];
    var refs := snapshot + diff + versions;
    assert r.snapshotRef.Some? ==> "snapshot_ref" in refs;
    assert r.diffRef.Some? ==> "diff_ref" in refs;
    assert r.versionRefs != [] ==> "version_refs" in refs;
    assert Get(BuildActivityRecord(input), ReconstructionRefs) == ReconstructionRefsOf(r);
  }

  /**
    Which metadata entry wins: the call's, then the reconstruction's, then the record scope, then the interaction's
    annotations, and last the sequence number.
   */
  lemma MetadataCarried(input: Input, key: string)
    ensures var metadata := Get(BuildActivityRecord(input), Metadata);
      && metadata.Native? && metadata.json.JObj?
      && Entry(metadata.json.fields, key) ==
           if key in input.metadata then Some(input.metadata[key])
           else if key in input.reconstruction.metadata then Some(input.reconstruction.metadata[key])
           else if key == "record_scope" then Some(JStr(input.scope))
           else if input.interaction.Some? && key in input.interaction.value.annotations
           then Some(input.interaction.value.annotations[key])
           else if key == "sequence" && input.sequence.Some? then Some(JNum(input.sequence.value))
           else None
  {}

  /** The chain an activity goes to is its interaction's project, and the global one without a project. */
  lemma BuiltChainKey(input: Input)
    ensures ChainKeyFor(BuildActivityRecord(input))
      == if input.interaction.Some? then ChainKeyForProject(input.interaction.value.projectId) else GLOBAL_CHAIN_KEY
  {}
}
