/**
 * The three structured-output contracts: the JSON Schemas handed to the CLI, a small interpreter for the
 * keywords they use, and the hand-written validators that re-check a turn's output.
 */
module CompletionSchema {
  import opened Json
  import opened Text

  // ---------------------------------------------------------------- JSON Schema interpreter

  datatype JsonType = TObject | TArray | TString | TBoolean | TInteger | TNull

  datatype Property = Property(name: string, schema: Schema)

  datatype Schema = Schema(
    types: set<JsonType>,
    enumeration: Option<seq<string>>,
    properties: seq<Property>,
    required: seq<string>,
    additionalProperties: bool,
    items: Option<Schema>)

  predicate HasType(v: Json, t: JsonType) {
    match t
    case TObject => v.Obj?
    case TArray => v.Arr?
    case TString => v.Str?
    case TBoolean => v.Bool?
    case TInteger => v.Num? && v.n == v.n.Floor as real
    case TNull => v.Null?
  }

  /** JSON Schema 2020-12: type, enum, required (Validation 6.1.1, 6.1.2, 6.5.3), items, properties,
      additionalProperties (Core 10.3.1.2, 10.3.2.1, 10.3.2.3). Object keywords ignore non-objects, `items` non-arrays. */
  predicate Satisfies(v: Json, s: Schema)
    decreases s, v
  {
    && (exists t :: t in s.types && HasType(v, t))
    && (s.enumeration.Some? ==> exists e :: e in s.enumeration.value && v == Str(e))
    && (v.Obj? ==>
          && (forall p :: p in s.properties && p.name in v.fields ==> Satisfies(v.fields[p.name], p.schema))
          && (forall name :: name in s.required ==> name in v.fields)
          && (!s.additionalProperties ==> forall key :: key in v.fields ==> IsPropertyName(s.properties, key)))
    && (v.Arr? && s.items.Some? ==> forall i :: 0 <= i < |v.items| ==> Satisfies(v.items[i], s.items.value))
  }

  predicate IsPropertyName(properties: seq<Property>, key: string) {
    exists i :: 0 <= i < |properties| && properties[i].name == key
  }

  function TypeSchema(types: set<JsonType>): Schema {
    Schema(types, None, [], [], true, None)
  }

  function EnumSchema(values: seq<string>): Schema {
    Schema({TString}, Some(values), [], [], true, None)
  }

  function ObjectSchema(properties: seq<Property>, required: seq<string>): Schema {
    Schema({TObject}, None, properties, required, false, None)
  }

  function ArraySchema(items: Schema): Schema {
    Schema({TArray}, None, [], [], true, Some(items))
  }

  // ---------------------------------------------------------------- the three schemas

  const PROTOCOL_VERSION := 1.0

  const COMPLETION_OUTCOMES := ["completed", "completed_no_commit", "blocked", "not_eligible", "failed"]
  const REVIEW_OUTCOMES := ["pass", "revision_required", "needs_human", "blocked", "failed"]

  datatype Field =
    | ProtocolVersion | IssueIdentifier | Outcome | CanonicalStatus | ResultPosted | CommitSha
    | VerifiedTeamId | VerifiedProjectId | VerifiedPickupState | ReviewActionToken | Summary
    | TeamId | ProjectId | TargetState | EligibleIssues
    | IssueId | Url

  function Name(f: Field): string {
    match f
    case ProtocolVersion => "protocolVersion"
    case IssueIdentifier => "issueIdentifier"
    case Outcome => "outcome"
    case CanonicalStatus => "canonicalStatus"
    case ResultPosted => "resultPosted"
    case CommitSha => "commitSha"
    case VerifiedTeamId => "verifiedTeamId"
    case VerifiedProjectId => "verifiedProjectId"
    case VerifiedPickupState => "verifiedPickupState"
    case ReviewActionToken => "reviewActionToken"
    case Summary => "summary"
    case TeamId => "teamId"
    case ProjectId => "projectId"
    case TargetState => "targetState"
    case EligibleIssues => "eligibleIssues"
    case IssueId => "issueId"
    case Url => "url"
  }

  /** `completionJsonSchema` and what `validateCompletionOutput` checks: each list is written out on its own. */
  const COMPLETION_PROPERTIES := [
    Property("protocolVersion", TypeSchema({TInteger})),
    Property("issueIdentifier", TypeSchema({TString})),
    Property("outcome", EnumSchema(COMPLETION_OUTCOMES)),
    Property("canonicalStatus", TypeSchema({TString})),
    Property("resultPosted", TypeSchema({TBoolean})),
    Property("commitSha", TypeSchema({TString, TNull})),
    Property("verifiedTeamId", TypeSchema({TString, TNull})),
    Property("verifiedProjectId", TypeSchema({TString, TNull})),
    Property("verifiedPickupState", TypeSchema({TString, TNull})),
    Property("summary", TypeSchema({TString}))]
  const COMPLETION_REQUIRED := ["protocolVersion", "issueIdentifier", "outcome", "canonicalStatus", "resultPosted",
    "commitSha", "verifiedTeamId", "verifiedProjectId", "verifiedPickupState", "summary"]
  const COMPLETION_SCHEMA := ObjectSchema(COMPLETION_PROPERTIES, COMPLETION_REQUIRED)
  const COMPLETION_CHECKS := [ProtocolVersion, IssueIdentifier, Outcome, CanonicalStatus, ResultPosted,
    CommitSha, VerifiedTeamId, VerifiedProjectId, VerifiedPickupState, Summary]
  const COMPLETION_KEYS := ["protocolVersion", "issueIdentifier", "outcome", "canonicalStatus", "resultPosted",
    "commitSha", "verifiedTeamId", "verifiedProjectId", "verifiedPickupState", "summary"]

  /** `reviewJsonSchema` and `validateReviewOutput`. */
  const REVIEW_PROPERTIES := [
    Property("protocolVersion", TypeSchema({TInteger})),
    Property("issueIdentifier", TypeSchema({TString})),
    Property("outcome", EnumSchema(REVIEW_OUTCOMES)),
    Property("canonicalStatus", TypeSchema({TString})),
    Property("resultPosted", TypeSchema({TBoolean})),
    Property("verifiedTeamId", TypeSchema({TString, TNull})),
    Property("verifiedProjectId", TypeSchema({TString, TNull})),
    Property("verifiedPickupState", TypeSchema({TString, TNull})),
    Property("reviewActionToken", TypeSchema({TString})),
    Property("summary", TypeSchema({TString}))]
  const REVIEW_REQUIRED := ["protocolVersion", "issueIdentifier", "outcome", "canonicalStatus", "resultPosted",
    "verifiedTeamId", "verifiedProjectId", "verifiedPickupState", "reviewActionToken", "summary"]
  const REVIEW_SCHEMA := ObjectSchema(REVIEW_PROPERTIES, REVIEW_REQUIRED)
  const REVIEW_CHECKS := [ProtocolVersion, IssueIdentifier, Outcome, CanonicalStatus, ResultPosted,
    VerifiedTeamId, VerifiedProjectId, VerifiedPickupState, ReviewActionToken, Summary]
  const REVIEW_KEYS := ["protocolVersion", "issueIdentifier", "outcome", "canonicalStatus", "resultPosted",
    "verifiedTeamId", "verifiedProjectId", "verifiedPickupState", "reviewActionToken", "summary"]

  /** `reconciliationJsonSchema`, its item schema, and `validateReconciliationOutput`. */
  const ISSUE_PROPERTIES := [
    Property("issueIdentifier", TypeSchema({TString})),
    Property("issueId", TypeSchema({TString})),
    Property("url", TypeSchema({TString, TNull}))]
  const ISSUE_REQUIRED := ["issueIdentifier", "issueId", "url"]
  const ISSUE_SCHEMA := ObjectSchema(ISSUE_PROPERTIES, ISSUE_REQUIRED)
  const ISSUE_CHECKS := [IssueIdentifier, IssueId, Url]
  const ISSUE_KEYS := ["issueIdentifier", "issueId", "url"]
  const RECONCILIATION_PROPERTIES := [
    Property("protocolVersion", TypeSchema({TInteger})),
    Property("teamId", TypeSchema({TString})),
    Property("projectId", TypeSchema({TString})),
    Property("targetState", TypeSchema({TString})),
    Property("eligibleIssues", ArraySchema(ISSUE_SCHEMA))]
  const RECONCILIATION_REQUIRED := ["protocolVersion", "teamId", "projectId", "targetState", "eligibleIssues"]
  const RECONCILIATION_SCHEMA := ObjectSchema(RECONCILIATION_PROPERTIES, RECONCILIATION_REQUIRED)
  const RECONCILIATION_CHECKS := [ProtocolVersion, TeamId, ProjectId, TargetState, EligibleIssues]
  const RECONCILIATION_KEYS := ["protocolVersion", "teamId", "projectId", "targetState", "eligibleIssues"]

  /** The schema of a property that a check on field `f` stands for; `items` is the schema of one listed issue. */
  function FieldSchema(f: Field, outcomes: seq<string>, items: Option<Schema>): Schema {
    match f
    case ProtocolVersion => TypeSchema({TInteger})
    case Outcome => EnumSchema(outcomes)
    case ResultPosted => TypeSchema({TBoolean})
    case CommitSha => TypeSchema({TString, TNull})
    case VerifiedTeamId => TypeSchema({TString, TNull})
    case VerifiedProjectId => TypeSchema({TString, TNull})
    case VerifiedPickupState => TypeSchema({TString, TNull})
    case Url => TypeSchema({TString, TNull})
    case EligibleIssues => Schema({TArray}, None, [], [], true, items)
    case _ => TypeSchema({TString})
  }

  /** A schema and the lists of a validator agree: one property and one required name for each check, and the allowed
      keys are the names of the checks. */
  ghost predicate Agree(s: Schema, checks: seq<Field>, keys: seq<string>, outcomes: seq<string>, items: Option<Schema>) {
    && s == ObjectSchema(s.properties, s.required)
    && |s.properties| == |s.required| == |keys| == |checks|
    && forall i :: 0 <= i < |checks| ==> AgreeAt(s, checks, keys, outcomes, items, i)
  }

  ghost predicate AgreeAt(s: Schema, checks: seq<Field>, keys: seq<string>, outcomes: seq<string>, items: Option<Schema>, i: nat)
    requires i < |checks| == |s.properties| == |s.required| == |keys|
  {
    s.properties[i] == Property(Name(checks[i]), FieldSchema(checks[i], outcomes, items)) && s.required[i] == keys[i] == Name(checks[i])
  }

  lemma CompletionListsAgree()
    ensures Agree(COMPLETION_SCHEMA, COMPLETION_CHECKS, COMPLETION_KEYS, COMPLETION_OUTCOMES, None)
  {
    forall i | 0 <= i < |COMPLETION_CHECKS| ensures AgreeAt(COMPLETION_SCHEMA, COMPLETION_CHECKS, COMPLETION_KEYS, COMPLETION_OUTCOMES, None, i) {
      CompletionListsAgreeAt(i);
    }
  }

  lemma CompletionListsAgreeAt(i: nat)
    requires i < |COMPLETION_CHECKS|
    ensures AgreeAt(COMPLETION_SCHEMA, COMPLETION_CHECKS, COMPLETION_KEYS, COMPLETION_OUTCOMES, None, i)
  {
  }

  lemma ReviewListsAgree()
    ensures Agree(REVIEW_SCHEMA, REVIEW_CHECKS, REVIEW_KEYS, REVIEW_OUTCOMES, None)
  {
    forall i | 0 <= i < |REVIEW_CHECKS| ensures AgreeAt(REVIEW_SCHEMA, REVIEW_CHECKS, REVIEW_KEYS, REVIEW_OUTCOMES, None, i) {
      ReviewListsAgreeAt(i);
    }
  }

  lemma ReviewListsAgreeAt(i: nat)
    requires i < |REVIEW_CHECKS|
    ensures AgreeAt(REVIEW_SCHEMA, REVIEW_CHECKS, REVIEW_KEYS, REVIEW_OUTCOMES, None, i)
  {
  }

  lemma IssueListsAgree()
    ensures Agree(ISSUE_SCHEMA, ISSUE_CHECKS, ISSUE_KEYS, [], None)
  {
  }

  lemma ReconciliationListsAgree()
    ensures Agree(RECONCILIATION_SCHEMA, RECONCILIATION_CHECKS, RECONCILIATION_KEYS, [], Some(ISSUE_SCHEMA))
  {
  }

  // ---------------------------------------------------------------- contracts

  function Read(v: Json, f: Field): JsValue {
    Member(Def(v), Name(f))
  }

  function Items(v: JsValue): seq<Json> {
    if v.Def? && v.v.Arr? then v.v.items else []
  }

  /** What the validators demand beyond the schemas: protocol version 1, and these strings not empty. */
  predicate Demands(v: Json, nonEmpty: seq<Field>) {
    Read(v, ProtocolVersion) == Def(Num(PROTOCOL_VERSION)) && forall f :: f in nonEmpty ==> !Is(Read(v, f), "")
  }

  predicate EntryDemand(issue: Json) {
    !Is(Read(issue, IssueIdentifier), "") && !Is(Read(issue, IssueId), "")
  }

  predicate EntryDemandsMet(v: Json) {
    forall issue :: issue in Items(Read(v, EligibleIssues)) ==> EntryDemand(issue)
  }

  predicate CompletionContract(v: Json) {
    Satisfies(v, COMPLETION_SCHEMA) && Demands(v, [IssueIdentifier, CanonicalStatus])
  }

  predicate ReviewContract(v: Json) {
    Satisfies(v, REVIEW_SCHEMA) && Demands(v, [IssueIdentifier, CanonicalStatus, ReviewActionToken])
  }

  predicate ReconciliationContract(v: Json) {
    Satisfies(v, RECONCILIATION_SCHEMA) && Demands(v, [TeamId, ProjectId, TargetState]) && EntryDemandsMet(v)
  }

  // ---------------------------------------------------------------- what each validator checks

  /** One entry of the `errors` array: the failing check, without its wording. */
  datatype Problem =
    | NotAnObject
    | BadField(field: Field)
    | UnexpectedProperty(key: string)
    | EntryNotAnObject(index: nat)
    | BadEntryField(index: nat, entryField: Field)
    | UnexpectedEntryProperty(index: nat, key: string)

  predicate IsOneOf(v: JsValue, texts: seq<string>) {
    IsString(v) && v.v.s in texts
  }

  predicate FieldOk(v: Json, f: Field, outcomes: seq<string>) {
    match f
    case ProtocolVersion => Read(v, f) == Def(Num(PROTOCOL_VERSION))
    case Outcome => IsOneOf(Read(v, f), outcomes)
    case ResultPosted => Read(v, f).Def? && Read(v, f).v.Bool?
    case CommitSha => IsStringOrNull(Read(v, f))
    case VerifiedTeamId => IsStringOrNull(Read(v, f))
    case VerifiedProjectId => IsStringOrNull(Read(v, f))
    case VerifiedPickupState => IsStringOrNull(Read(v, f))
    case Url => IsStringOrNull(Read(v, f))
    case Summary => IsString(Read(v, f))
    case EligibleIssues => Read(v, f).Def? && Read(v, f).v.Arr?
    case _ => IsNonEmptyString(Read(v, f))
  }

  /** A flat record check: which problems a value has for the given checks and allowed keys. */
  predicate RecordProblem(v: Json, p: Problem, checks: seq<Field>, keys: seq<string>, outcomes: seq<string>) {
    match p
    case NotAnObject => !v.Obj?
    case BadField(f) => v.Obj? && f in checks && !FieldOk(v, f, outcomes)
    case UnexpectedProperty(key) => v.Obj? && key in v.fields && key !in keys
    case _ => false
  }

  predicate EntryProblem(entry: Json, index: nat, p: Problem) {
    match p
    case EntryNotAnObject(i) => i == index && !entry.Obj? && !entry.Arr?
    case BadEntryField(i, f) => i == index && (entry.Obj? || entry.Arr?) && f in ISSUE_CHECKS && !FieldOk(entry, f, [])
    case UnexpectedEntryProperty(i, key) => i == index && key in ObjectKeys(entry) && key !in ISSUE_KEYS
    case _ => false
  }

  /** `Object.keys(v)`: the keys of an object, the index strings of an array. */
  function ObjectKeys(v: Json): set<string> {
    match v
    case Obj(m) => m.Keys
    case Arr(items) => set i | 0 <= i < |items| :: Decimal(i)
    case _ => {}
  }

  /** A key of an array is the numeral of one of its positions, as it is printed. */
  lemma KeysOfArray(items: seq<Json>, key: string)
    ensures key in ObjectKeys(Arr(items)) <==>
            (forall c :: c in key ==> IsDigit(c)) && Value(key) < |items| && Decimal(Value(key)) == key
  {
    if key in ObjectKeys(Arr(items)) {
      var i :| 0 <= i < |items| && key == Decimal(i);
      DecimalRoundTrip(i);
    }
  }

  /** The problem concerns one of the entries. */
  predicate SomeEntryProblem(entries: seq<Json>, p: Problem) {
    exists i :: 0 <= i < |entries| && EntryProblem(entries[i], i, p)
  }

  predicate ReconciliationProblem(v: Json, p: Problem) {
    || RecordProblem(v, p, RECONCILIATION_CHECKS, RECONCILIATION_KEYS, [])
    || (v.Obj? && SomeEntryProblem(Items(Read(v, EligibleIssues)), p))
  }

  // ---------------------------------------------------------------- checks agree with schemas

  /** One property of a closed record: present and well-typed. */
  ghost predicate HasProperty(v: Json, p: Property) {
    v.Obj? && p.name in v.fields && Satisfies(v.fields[p.name], p.schema)
  }

  /** When every declared property is required, a record schema is the conjunction of its properties plus closure. */
  lemma RecordSchemas(v: Json, properties: seq<Property>, required: seq<string>)
    requires |required| == |properties|
    requires forall i :: 0 <= i < |required| ==> properties[i].name == required[i]
    ensures Satisfies(v, ObjectSchema(properties, required)) <==>
            && v.Obj?
            && (forall i :: 0 <= i < |properties| ==> HasProperty(v, properties[i]))
            && (forall key :: key in v.fields ==> key in required)
  {
    var s := ObjectSchema(properties, required);
    assert TObject in s.types;
    if v.Obj? {
      forall key ensures IsPropertyName(properties, key) <==> key in required {
        if key in required {
          var i :| 0 <= i < |required| && required[i] == key;
          assert properties[i].name == key;
        }
      }
      if Satisfies(v, s) {
        forall i | 0 <= i < |properties| ensures HasProperty(v, properties[i]) {
          assert properties[i] in s.properties && required[i] in s.required;
        }
      }
      if forall i :: 0 <= i < |properties| ==> HasProperty(v, properties[i]) {
        forall p | p in s.properties ensures p.name in v.fields && Satisfies(v.fields[p.name], p.schema) {
          var i :| 0 <= i < |properties| && properties[i] == p;
          assert HasProperty(v, properties[i]);
        }
        forall name | name in s.required ensures name in v.fields {
          var i :| 0 <= i < |required| && required[i] == name;
          assert HasProperty(v, properties[i]);
        }
      }
    }
  }

  lemma TypeSchemas(v: Json)
    ensures Satisfies(v, TypeSchema({TInteger})) <==> HasType(v, TInteger)
    ensures Satisfies(v, TypeSchema({TString})) <==> v.Str?
    ensures Satisfies(v, TypeSchema({TBoolean})) <==> v.Bool?
    ensures Satisfies(v, TypeSchema({TString, TNull})) <==> v.Str? || v.Null?
  {
    assert TInteger in TypeSchema({TInteger}).types;
    assert TString in TypeSchema({TString}).types;
    assert TBoolean in TypeSchema({TBoolean}).types;
    assert TString in TypeSchema({TString, TNull}).types && TNull in TypeSchema({TString, TNull}).types;
  }

  lemma EnumSchemas(v: Json, outcomes: seq<string>)
    ensures Satisfies(v, EnumSchema(outcomes)) <==> v.Str? && v.s in outcomes
  {
    assert TString in EnumSchema(outcomes).types;
  }

  lemma ArraySchemas(v: Json, s: Schema)
    ensures Satisfies(v, Schema({TArray}, None, [], [], true, Some(s))) <==>
            v.Arr? && forall i :: 0 <= i < |v.items| ==> Satisfies(v.items[i], s)
  {
    assert TArray in Schema({TArray}, None, [], [], true, Some(s)).types;
  }

  /** An object or array whose fields and keys pass every check. */
  predicate RecordOk(v: Json, checks: seq<Field>, keys: seq<string>, outcomes: seq<string>) {
    && (v.Obj? || v.Arr?)
    && (forall f :: f in checks ==> Checked(v, f, outcomes))
    && (forall key :: key in ObjectKeys(v) ==> key in keys)
  }

  predicate Checked(v: Json, f: Field, outcomes: seq<string>) {
    FieldOk(v, f, outcomes) && (f == EligibleIssues ==> EntriesOk(v))
  }

  predicate EntriesOk(v: Json) {
    forall issue :: issue in Items(Read(v, EligibleIssues)) ==> EntryOk(issue)
  }

  /** An entry of `eligibleIssues` passes every entry check. */
  predicate EntryOk(entry: Json) {
    && (entry.Obj? || entry.Arr?)
    && (forall f :: f in ISSUE_CHECKS ==> FieldOk(entry, f, []))
    && (forall key :: key in ObjectKeys(entry) ==> key in ISSUE_KEYS)
  }

  /** The entry checks accept exactly what this schema of one entry accepts, plus the extra demands. */
  ghost predicate DecidesEntries(items: Schema) {
    forall e {:trigger EntryOk(e)} :: EntryOk(e) <==> Satisfies(e, items) && EntryDemand(e)
  }

  /** The part of the demands that a check on one field stands for. */
  predicate FieldDemand(v: Json, f: Field) {
    match f
    case ProtocolVersion => Read(v, f) == Def(Num(PROTOCOL_VERSION))
    case EligibleIssues => EntryDemandsMet(v)
    case IssueIdentifier => !Is(Read(v, f), "")
    case CanonicalStatus => !Is(Read(v, f), "")
    case ReviewActionToken => !Is(Read(v, f), "")
    case TeamId => !Is(Read(v, f), "")
    case ProjectId => !Is(Read(v, f), "")
    case TargetState => !Is(Read(v, f), "")
    case IssueId => !Is(Read(v, f), "")
    case _ => true
  }

  predicate TypeOk(x: Json, f: Field, outcomes: seq<string>) {
    match f
    case ProtocolVersion => HasType(x, TInteger)
    case Outcome => x.Str? && x.s in outcomes
    case ResultPosted => x.Bool?
    case CommitSha => x.Str? || x.Null?
    case VerifiedTeamId => x.Str? || x.Null?
    case VerifiedProjectId => x.Str? || x.Null?
    case VerifiedPickupState => x.Str? || x.Null?
    case Url => x.Str? || x.Null?
    case _ => x.Str?
  }

  lemma FieldTypes(x: Json, f: Field, outcomes: seq<string>, items: Option<Schema>)
    requires f != EligibleIssues
    ensures Satisfies(x, FieldSchema(f, outcomes, items)) <==> TypeOk(x, f, outcomes)
  {
    TypeSchemas(x);
    EnumSchemas(x, outcomes);
  }

  lemma EntriesMeetSchema(x: Json, items: Schema)
    requires DecidesEntries(items)
    ensures x.Arr? && (forall e :: e in Items(Def(x)) ==> EntryOk(e)) <==>
            Satisfies(x, ArraySchema(items)) && forall e :: e in Items(Def(x)) ==> EntryDemand(e)
  {
    ArraySchemas(x, items);
    if x.Arr? {
      forall e | e in x.items ensures EntryOk(e) <==> Satisfies(e, items) && EntryDemand(e) {
      }
      assert forall i :: 0 <= i < |x.items| ==> x.items[i] in x.items;
    }
  }

  /** Field by field, the hand-written check is the schema property plus its extra demand. */
  lemma FieldChecksMeetSchema(v: Json, f: Field, outcomes: seq<string>, items: Option<Schema>)
    requires v.Obj?
    requires f == EligibleIssues ==> items.Some? && DecidesEntries(items.value)
    ensures Checked(v, f, outcomes) <==>
            HasProperty(v, Property(Name(f), FieldSchema(f, outcomes, items))) && FieldDemand(v, f)
  {
    if Name(f) in v.fields {
      if f == EligibleIssues {
        EntriesMeetSchema(v.fields[Name(f)], items.value);
      } else {
        FieldTypes(v.fields[Name(f)], f, outcomes, items);
      }
    }
  }

  /** When the lists agree, the checks of a validator accept exactly what its schema accepts and its demands allow; arrays
      never pass. */
  lemma ChecksMeetSchema(v: Json, s: Schema, checks: seq<Field>, keys: seq<string>, outcomes: seq<string>, items: Option<Schema>)
    requires Agree(s, checks, keys, outcomes, items) && checks != []
    requires EligibleIssues in checks ==> items.Some? && DecidesEntries(items.value)
    ensures RecordOk(v, checks, keys, outcomes) <==> Satisfies(v, s) && forall f :: f in checks ==> FieldDemand(v, f)
  {
    forall i | 0 <= i < |checks| ensures s.properties[i].name == s.required[i] == keys[i] {
      assert AgreeAt(s, checks, keys, outcomes, items, i);
    }
    assert s.required == keys;
    RecordSchemas(v, s.properties, s.required);
    if v.Obj? {
      AllChecksMeetProperties(v, s, checks, keys, outcomes, items);
    } else {
      assert !FieldOk(v, checks[0], outcomes) && checks[0] in checks;
    }
  }

  lemma AllChecksMeetProperties(v: Json, s: Schema, checks: seq<Field>, keys: seq<string>, outcomes: seq<string>, items: Option<Schema>)
    requires v.Obj? && Agree(s, checks, keys, outcomes, items)
    requires EligibleIssues in checks ==> items.Some? && DecidesEntries(items.value)
    ensures (forall f :: f in checks ==> Checked(v, f, outcomes)) <==>
            (forall i :: 0 <= i < |s.properties| ==> HasProperty(v, s.properties[i])) && forall f :: f in checks ==> FieldDemand(v, f)
  {
    forall i | 0 <= i < |checks| ensures Checked(v, checks[i], outcomes) <==> HasProperty(v, s.properties[i]) && FieldDemand(v, checks[i]) {
      assert AgreeAt(s, checks, keys, outcomes, items, i);
      FieldChecksMeetSchema(v, checks[i], outcomes, items);
    }
    forall f | f in checks
      ensures exists i :: 0 <= i < |s.properties| && checks[i] == f && (Checked(v, f, outcomes) <==> HasProperty(v, s.properties[i]) && FieldDemand(v, f))
    {
      var i :| 0 <= i < |checks| && checks[i] == f;
      assert Checked(v, checks[i], outcomes) <==> HasProperty(v, s.properties[i]) && FieldDemand(v, checks[i]);
    }
  }

  /** The fields that some contract demands to be non-empty strings. */
  predicate IsDemanded(f: Field) {
    match f
    case IssueIdentifier => true
    case CanonicalStatus => true
    case ReviewActionToken => true
    case TeamId => true
    case ProjectId => true
    case TargetState => true
    case IssueId => true
    case _ => false
  }

  /** The non-empty strings a contract demands are those its checks stand for. */
  ghost predicate DemandsMatch(checks: seq<Field>, nonEmpty: seq<Field>) {
    ProtocolVersion in checks && forall f :: f in nonEmpty <==> f in checks && IsDemanded(f)
  }

  /** When the lists agree, the checks of a validator are its contract. */
  lemma ChecksMeetContract(v: Json, s: Schema, checks: seq<Field>, keys: seq<string>, outcomes: seq<string>, items: Option<Schema>, nonEmpty: seq<Field>)
    requires Agree(s, checks, keys, outcomes, items) && DemandsMatch(checks, nonEmpty)
    requires EligibleIssues in checks ==> items.Some? && DecidesEntries(items.value)
    ensures RecordOk(v, checks, keys, outcomes) <==>
            Satisfies(v, s) && Demands(v, nonEmpty) && (EligibleIssues in checks ==> EntryDemandsMet(v))
  {
    ChecksMeetSchema(v, s, checks, keys, outcomes, items);
    DemandsOf(v, checks, nonEmpty);
  }

  lemma CompletionDemandsMatch()
    ensures DemandsMatch(COMPLETION_CHECKS, [IssueIdentifier, CanonicalStatus]) && EligibleIssues !in COMPLETION_CHECKS
  {
    var c := COMPLETION_CHECKS;
    assert c[0] == ProtocolVersion && c[1] == IssueIdentifier && c[3] == CanonicalStatus;
  }

  lemma ReviewDemandsMatch()
    ensures DemandsMatch(REVIEW_CHECKS, [IssueIdentifier, CanonicalStatus, ReviewActionToken]) && EligibleIssues !in REVIEW_CHECKS
  {
    var c := REVIEW_CHECKS;
    assert c[0] == ProtocolVersion && c[1] == IssueIdentifier && c[3] == CanonicalStatus && c[8] == ReviewActionToken;
  }

  lemma ReconciliationDemandsMatch()
    ensures DemandsMatch(RECONCILIATION_CHECKS, [TeamId, ProjectId, TargetState]) && EligibleIssues in RECONCILIATION_CHECKS
  {
    var c := RECONCILIATION_CHECKS;
    assert c[0] == ProtocolVersion && c[1] == TeamId && c[2] == ProjectId && c[3] == TargetState && c[4] == EligibleIssues;
  }

  /** `validateCompletionOutput` checks what its schema and its demands say. */
  lemma CompletionChecks(v: Json)
    ensures RecordOk(v, COMPLETION_CHECKS, COMPLETION_KEYS, COMPLETION_OUTCOMES) <==> CompletionContract(v)
  {
    CompletionListsAgree();
    CompletionDemandsMatch();
    ChecksMeetContract(v, COMPLETION_SCHEMA, COMPLETION_CHECKS, COMPLETION_KEYS, COMPLETION_OUTCOMES, None, [IssueIdentifier, CanonicalStatus]);
  }

  lemma ReviewChecks(v: Json)
    ensures RecordOk(v, REVIEW_CHECKS, REVIEW_KEYS, REVIEW_OUTCOMES) <==> ReviewContract(v)
  {
    ReviewListsAgree();
    ReviewDemandsMatch();
    ChecksMeetContract(v, REVIEW_SCHEMA, REVIEW_CHECKS, REVIEW_KEYS, REVIEW_OUTCOMES, None, [IssueIdentifier, CanonicalStatus, ReviewActionToken]);
  }

  lemma OutcomeIsChecked(v: Json, checks: seq<Field>, keys: seq<string>, outcomes: seq<string>)
    requires RecordOk(v, checks, keys, outcomes) && Outcome in checks
    ensures IsOneOf(Read(v, Outcome), outcomes)
  {
    assert Checked(v, Outcome, outcomes);
  }

  lemma OutcomeIsListed()
    ensures Outcome in COMPLETION_CHECKS && Outcome in REVIEW_CHECKS
  {
    assert COMPLETION_CHECKS[2] == Outcome && REVIEW_CHECKS[2] == Outcome;
  }

  /** A valid output reports one of the declared outcomes. */
  lemma CompletionReportsOutcome(v: Json)
    requires CompletionContract(v)
    ensures IsOneOf(Read(v, Outcome), COMPLETION_OUTCOMES)
  {
    CompletionChecks(v);
    OutcomeIsListed();
    OutcomeIsChecked(v, COMPLETION_CHECKS, COMPLETION_KEYS, COMPLETION_OUTCOMES);
  }

  lemma ReviewReportsOutcome(v: Json)
    requires ReviewContract(v)
    ensures IsOneOf(Read(v, Outcome), REVIEW_OUTCOMES)
  {
    ReviewChecks(v);
    OutcomeIsListed();
    OutcomeIsChecked(v, REVIEW_CHECKS, REVIEW_KEYS, REVIEW_OUTCOMES);
  }

  lemma ReconciliationChecks(v: Json)
    ensures RecordOk(v, RECONCILIATION_CHECKS, RECONCILIATION_KEYS, []) <==> ReconciliationContract(v)
  {
    ReconciliationListsAgree();
    forall e ensures EntryOk(e) <==> Satisfies(e, ISSUE_SCHEMA) && EntryDemand(e) {
      EntryChecks(e);
    }
    ReconciliationDemandsMatch();
    ChecksMeetContract(v, RECONCILIATION_SCHEMA, RECONCILIATION_CHECKS, RECONCILIATION_KEYS, [], Some(ISSUE_SCHEMA), [TeamId, ProjectId, TargetState]);
  }

  /** The demands of the single checks add up to those of the contract. */
  lemma DemandsOf(v: Json, checks: seq<Field>, nonEmpty: seq<Field>)
    requires DemandsMatch(checks, nonEmpty)
    ensures (forall f :: f in checks ==> FieldDemand(v, f)) <==> Demands(v, nonEmpty) && (EligibleIssues in checks ==> EntryDemandsMet(v))
  {
    if Demands(v, nonEmpty) && (EligibleIssues in checks ==> EntryDemandsMet(v)) {
      forall f | f in checks ensures FieldDemand(v, f) {
        assert f in nonEmpty ==> !Is(Read(v, f), "");
      }
    }
    if forall f :: f in checks ==> FieldDemand(v, f) {
      forall f | f in nonEmpty ensures !Is(Read(v, f), "") {
        assert FieldDemand(v, f);
      }
      assert FieldDemand(v, ProtocolVersion);
      assert EligibleIssues in checks ==> FieldDemand(v, EligibleIssues);
    }
  }

  lemma EntryChecks(e: Json)
    ensures EntryOk(e) <==> Satisfies(e, ISSUE_SCHEMA) && EntryDemand(e)
  {
    IssueListsAgree();
    ChecksMeetSchema(e, ISSUE_SCHEMA, ISSUE_CHECKS, ISSUE_KEYS, [], None);
    EntryDemands(e);
  }

  lemma EntryDemands(e: Json)
    ensures EntryDemand(e) <==> forall f :: f in ISSUE_CHECKS ==> FieldDemand(e, f)
    ensures EntryOk(e) <==> RecordOk(e, ISSUE_CHECKS, ISSUE_KEYS, [])
  {
    var fs := ISSUE_CHECKS;
    assert fs[0] == IssueIdentifier && fs[1] == IssueId && fs[2] == Url;
    assert IssueIdentifier in fs && IssueId in fs && EligibleIssues !in fs;
  }

  // ---------------------------------------------------------------- the validators

  method ValidateCompletionOutput(value: Json) returns (valid: bool, errors: seq<Problem>)
    ensures valid <==> CompletionContract(value)
    ensures forall p :: p in errors <==> RecordProblem(value, p, COMPLETION_CHECKS, COMPLETION_KEYS, COMPLETION_OUTCOMES)
  {
    CompletionChecks(value);
    valid, errors := ValidateRecord(value, COMPLETION_CHECKS, COMPLETION_KEYS, COMPLETION_OUTCOMES);
  }

  method ValidateReviewOutput(value: Json) returns (valid: bool, errors: seq<Problem>)
    ensures valid <==> ReviewContract(value)
    ensures forall p :: p in errors <==> RecordProblem(value, p, REVIEW_CHECKS, REVIEW_KEYS, REVIEW_OUTCOMES)
  {
    ReviewChecks(value);
    valid, errors := ValidateRecord(value, REVIEW_CHECKS, REVIEW_KEYS, REVIEW_OUTCOMES);
  }

  method ValidateReconciliationOutput(value: Json) returns (valid: bool, errors: seq<Problem>)
    ensures valid <==> ReconciliationContract(value)
    ensures forall p :: p in errors <==> ReconciliationProblem(value, p)
  {
    ReconciliationChecks(value);
    if RecordOk(value, RECONCILIATION_CHECKS, RECONCILIATION_KEYS, []) {
      OnlyObjectsPass(value, RECONCILIATION_CHECKS, RECONCILIATION_KEYS, []);
    }
    if !value.Obj? {
      return false, [NotAnObject];
    }
    var entries := Items(Read(value, EligibleIssues));
    var fieldErrors := CheckFields(value, RECONCILIATION_CHECKS, []);
    var entryErrors := CheckEntries(entries);
    var unexpected := UnexpectedKeys(value.fields.Keys, RECONCILIATION_KEYS);
    errors := fieldErrors + entryErrors + unexpected;
    valid := errors == [];
    NoProblemsMeansOk(value, errors);
  }

  lemma OnlyObjectsPass(v: Json, checks: seq<Field>, keys: seq<string>, outcomes: seq<string>)
    requires |checks| > 0 && RecordOk(v, checks, keys, outcomes)
    ensures v.Obj?
  {
    assert Checked(v, checks[0], outcomes);
  }

  lemma NoProblemsMeansOk(value: Json, errors: seq<Problem>)
    requires value.Obj?
    requires forall p :: p in errors <==> ReconciliationProblem(value, p)
    ensures errors == [] <==> RecordOk(value, RECONCILIATION_CHECKS, RECONCILIATION_KEYS, [])
  {
    var entries := Items(Read(value, EligibleIssues));
    if errors != [] {
      assert errors[0] in errors;
      if SomeEntryProblem(entries, errors[0]) {
        var i :| 0 <= i < |entries| && EntryProblem(entries[i], i, errors[0]);
        EntryProblems(entries[i], i);
        assert entries[i] in entries && EligibleIssues in RECONCILIATION_CHECKS;
      }
    } else {
      forall f | f in RECONCILIATION_CHECKS ensures FieldOk(value, f, []) {
        assert !ReconciliationProblem(value, BadField(f));
      }
      forall key | key in ObjectKeys(value) ensures key in RECONCILIATION_KEYS {
        assert !ReconciliationProblem(value, UnexpectedProperty(key));
      }
      forall issue | issue in entries ensures EntryOk(issue) {
        var i :| 0 <= i < |entries| && entries[i] == issue;
        forall p ensures !EntryProblem(issue, i, p) {
          assert EntryProblem(entries[i], i, p) ==> SomeEntryProblem(entries, p);
          assert !ReconciliationProblem(value, p);
        }
        EntryProblems(issue, i);
      }
    }
  }

  /** An entry passes exactly when it has no problem. */
  lemma EntryProblems(entry: Json, index: nat)
    ensures EntryOk(entry) <==> forall p :: !EntryProblem(entry, index, p)
  {
    if !entry.Obj? && !entry.Arr? {
      assert EntryProblem(entry, index, EntryNotAnObject(index));
    } else if forall p :: !EntryProblem(entry, index, p) {
      forall f | f in ISSUE_CHECKS ensures FieldOk(entry, f, []) {
        assert !EntryProblem(entry, index, BadEntryField(index, f));
      }
      forall key | key in ObjectKeys(entry) ensures key in ISSUE_KEYS {
        assert !EntryProblem(entry, index, UnexpectedEntryProperty(index, key));
      }
    }
  }

  method CheckEntries(entries: seq<Json>) returns (errors: seq<Problem>)
    ensures forall p :: p in errors <==> SomeEntryProblem(entries, p)
  {
    errors := [];
    for i := 0 to |entries|
      invariant forall p :: p in errors <==> SomeEntryProblem(entries[..i], p)
    {
      var entryErrors := CheckEntry(entries[i], i);
      errors := errors + entryErrors;
      forall p ensures SomeEntryProblem(entries[..i + 1], p) <==> SomeEntryProblem(entries[..i], p) || EntryProblem(entries[i], i, p) {
        if SomeEntryProblem(entries[..i], p) {
          var j :| 0 <= j < i && EntryProblem(entries[..i][j], j, p);
          assert entries[..i + 1][j] == entries[j];
        }
        if EntryProblem(entries[i], i, p) {
          assert entries[..i + 1][i] == entries[i];
        }
      }
    }
    assert entries[..|entries|] == entries;
  }

  method CheckEntry(entry: Json, index: nat) returns (errors: seq<Problem>)
    ensures forall p :: p in errors <==> EntryProblem(entry, index, p)
  {
    if !entry.Obj? && !entry.Arr? {
      return [EntryNotAnObject(index)];
    }
    errors := [];
    for i := 0 to |ISSUE_CHECKS|
      invariant forall p :: p in errors <==>
        p.BadEntryField? && p.index == index && p.entryField in ISSUE_CHECKS[..i] && !FieldOk(entry, p.entryField, [])
    {
      if !FieldOk(entry, ISSUE_CHECKS[i], []) {
        errors := errors + [BadEntryField(index, ISSUE_CHECKS[i])];
      }
      assert ISSUE_CHECKS[..i + 1] == ISSUE_CHECKS[..i] + [ISSUE_CHECKS[i]];
    }
    assert ISSUE_CHECKS[..|ISSUE_CHECKS|] == ISSUE_CHECKS;
    ghost var fieldErrors := errors;
    var keys := ObjectKeys(entry);
    var rest := keys;
    while rest != {}
      invariant rest <= keys
      invariant forall p :: p in errors <==>
        || p in fieldErrors
        || (p.UnexpectedEntryProperty? && p.index == index && p.key in keys - rest && p.key !in ISSUE_KEYS)
    {
      var key :| key in rest;
      if key !in ISSUE_KEYS {
        errors := errors + [UnexpectedEntryProperty(index, key)];
      }
      rest := rest - {key};
    }
  }

  /** The sequence of field checks followed by the key loop, shared by all validators. */
  method ValidateRecord(value: Json, checks: seq<Field>, keys: seq<string>, outcomes: seq<string>) returns (valid: bool, errors: seq<Problem>)
    requires EligibleIssues !in checks
    ensures valid <==> value.Obj? && RecordOk(value, checks, keys, outcomes)
    ensures forall p :: p in errors <==> RecordProblem(value, p, checks, keys, outcomes)
  {
    errors := [];
    if !value.Obj? {
      return false, [NotAnObject];
    }
    errors := CheckFields(value, checks, outcomes);
    var unexpected := UnexpectedKeys(value.fields.Keys, keys);
    errors := errors + unexpected;
    valid := errors == [];
    if errors != [] {
      assert errors[0] in errors && RecordProblem(value, errors[0], checks, keys, outcomes);
    } else {
      assert forall f :: f in checks && !FieldOk(value, f, outcomes) ==> BadField(f) in errors;
      assert forall key :: key in value.fields && key !in keys ==> UnexpectedProperty(key) in errors;
    }
  }

  method CheckFields(value: Json, fields: seq<Field>, outcomes: seq<string>) returns (errors: seq<Problem>)
    ensures forall p :: p in errors <==> p.BadField? && p.field in fields && !FieldOk(value, p.field, outcomes)
  {
    errors := [];
    for i := 0 to |fields|
      invariant forall p :: p in errors <==> p.BadField? && p.field in fields[..i] && !FieldOk(value, p.field, outcomes)
    {
      if !FieldOk(value, fields[i], outcomes) {
        errors := errors + [BadField(fields[i])];
      }
      assert fields[..i + 1] == fields[..i] + [fields[i]];
    }
    assert fields[..|fields|] == fields;
  }

  method UnexpectedKeys(keys: set<string>, allowed: seq<string>) returns (errors: seq<Problem>)
    ensures forall p :: p in errors <==> p.UnexpectedProperty? && p.key in keys && p.key !in allowed
  {
    errors := [];
    var rest := keys;
    while rest != {}
      invariant rest <= keys
      invariant forall p :: p in errors <==> p.UnexpectedProperty? && p.key in keys - rest && p.key !in allowed
    {
      var key :| key in rest;
      if key !in allowed {
        errors := errors + [UnexpectedProperty(key)];
      }
      rest := rest - {key};
    }
  }
}
