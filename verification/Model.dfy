/** The entities the operator reads and writes: custom resources, Secrets, and the S3 backend. */
module Model {
  import opened Collections
  import opened Text

  const TWO_TO_THE_63: int := 0x8000_0000_0000_0000
  const TWO_TO_THE_64: int := 0x1_0000_0000_0000_0000

  type Int64 = x: int | -TWO_TO_THE_63 <= x < TWO_TO_THE_63
  type UInt64 = x: int | 0 <= x < TWO_TO_THE_64

  /** A policy name that survives the comma-joined list in which the backend reports a user's policies. */
  predicate PlainName(s: string) {
    s != [] && ',' !in s && !IsSpace(s[0]) && !IsSpace(s[|s| - 1])
  }

  type PolicyName = s: string | PlainName(s) witness "p"

  // ---------- Kubernetes objects ----------

  datatype Kind = S3UserKind | BucketKind | PathKind | PolicyKind | S3InstanceKind

  datatype Id = Id(kind: Kind, namespace: string, name: string)

  datatype Key = Key(namespace: string, name: string)

  datatype Finalizer = Operator | Foreign(name: string)

  datatype Status = True | False | Unknown

  datatype Reason = Reconciling | Unreachable | CreationFailure | Reconciled | DeletionFailure

  /** The place in the code a condition message comes from. */
  datatype Site =
    | Starting | Success | ClientSite | ExistenceSite | ListSecretsSite | DeleteUserSite | DeleteSecretSite
    | ReadPoliciesSite | UpdatePoliciesSite | CredentialsSite | PasswordSite | BuildSecretSite | CreateUserSite
    | CreateSecretSite | CheckSecretSite | OwnedElsewhereSite | UpdateSecretSite | KeptSecretSite | QuotaSite
    | ConversionSite | PathSite | CreateSite | MissingBucketSite | ComparisonSite | FinalizeSite

  datatype Error =
    | Transient(code: int) | Refused | InstanceNotFound | InstanceNotReady | OwnedByOtherUser | SecretExists
    | InvalidJson | PathsLeft

  datatype ConditionType = ReconciledType | OtherType(name: string)

  datatype Condition = Condition(
    ctype: ConditionType, status: Status, observedGeneration: int, reason: Reason, site: Site, error: Option<Error>)

  datatype S3Config = S3Config(
    scheme: string, endpoint: string, url: string, region: string, pathStyle: string, caCertificates: string)

  datatype Spec =
    | UserSpec(
        s3InstanceRef: string, accessKey: string, policies: seq<PolicyName>, secretName: string,
        accessKeyField: string, secretKeyField: string)
    | BucketSpec(
        s3InstanceRef: string, bucket: string, paths: seq<string>,
        defaultQuota: Option<Int64>, overrideQuota: Option<Int64>)
    | PathSpec(s3InstanceRef: string, bucket: string, paths: seq<string>)
    | PolicySpec(s3InstanceRef: string, policy: string, content: string)
    | InstanceSpec(
        config: S3Config, allowedNamespaces: seq<string>, bucketDeletionEnabled: bool,
        policyDeletionEnabled: bool, pathDeletionEnabled: bool, userDeletionEnabled: bool)

  function KindOf(spec: Spec): Kind {
    match spec
    case UserSpec(_, _, _, _, _, _) => S3UserKind
    case BucketSpec(_, _, _, _, _) => BucketKind
    case PathSpec(_, _, _) => PathKind
    case PolicySpec(_, _, _) => PolicyKind
    case InstanceSpec(_, _, _, _, _, _) => S3InstanceKind
  }

  /** A custom resource: the metadata, status and spec the controllers use. */
  datatype Resource = Resource(
    uid: string, generation: int, deleting: bool, finalizers: set<Finalizer>, conditions: seq<Condition>, spec: Spec)

  datatype OwnerKind = S3UserOwner | OtherOwner(name: string)

  datatype OwnerRef = OwnerRef(kind: OwnerKind, name: string, uid: string, controller: bool)

  datatype SecretObject = Secret(owners: seq<OwnerRef>, data: map<string, string>)

  /** The UIDs recorded on one Secret are pairwise different. */
  predicate DistinctOwners(s: SecretObject) {
    forall i, j :: 0 <= i < j < |s.owners| ==> s.owners[i].uid != s.owners[j].uid
  }

  type Secret = s: SecretObject | DistinctOwners(s) witness Secret([], map[])

  // ---------- S3 backend ----------

  datatype BackendUser = BackendUser(key: string, policies: set<PolicyName>)

  datatype BackendBucket = BackendBucket(quota: UInt64, objects: set<string>)

  /** Everything the controllers act on. */
  datatype World = World(
    resources: map<Id, Resource>,
    secrets: map<Key, Secret>,
    users: map<string, BackendUser>,
    buckets: map<string, BackendBucket>,
    policies: map<string, string>)

  /** What one Reconcile call returns to the work queue. */
  datatype Outcome = Finished(requeueAfter: nat) | Errored

  /** Operator flags. */
  datatype Config = Config(overrideExistingSecret: bool, readExistingSecret: bool, reconcilePeriod: nat)
}
