/** The keys of the generated file, and why no two of them are written alike. */
module EnvKeys {
  import opened Topology
  import opened Wrappers

  /** Keys the whole stack shares. */
  datatype Global =
    | StackMode | StackAddressing | KafkaBrokers | AwsRegion | AwsEndpointUrl | AwsAccessKeyId
    | AwsSecretAccessKey | ObjectStoreBucket | NodeExtraCaCerts | SesFromAddress | RpId | RpOrigin | RpName

  function GlobalText(g: Global): string {
    match g
    case StackMode => "STACK_MODE"
    case StackAddressing => "STACK_ADDRESSING"
    case KafkaBrokers => "KAFKA_BROKERS"
    case AwsRegion => "AWS_REGION"
    case AwsEndpointUrl => "AWS_ENDPOINT_URL"
    case AwsAccessKeyId => "AWS_ACCESS_KEY_ID"
    case AwsSecretAccessKey => "AWS_SECRET_ACCESS_KEY"
    case ObjectStoreBucket => "OBJECT_STORE_BUCKET"
    case NodeExtraCaCerts => "NODE_EXTRA_CA_CERTS"
    case SesFromAddress => "SES_FROM_ADDRESS"
    case RpId => "RP_ID"
    case RpOrigin => "RP_ORIGIN"
    case RpName => "RP_NAME"
  }

  /** What follows a service's prefix in a key that is not a credential. */
  datatype Var =
    | DatabaseUrlVar | KmsModeVar | AwsKmsKeyIdVar | KmsMasterKeyVar | EmailIndexKey | ItemIndexKey | SearchIndexKey
    | ObjectStoreMode | ScannerMode | ClamdHost | OcrMode | OcrUrl | NotifyMode | EmailMode | ModeVar | ProfileVar
    | LlmMode

  function VarText(v: Var): string {
    match v
    case DatabaseUrlVar => "DATABASE_URL"
    case KmsModeVar => "KMS_MODE"
    case AwsKmsKeyIdVar => "AWS_KMS_KEY_ID"
    case KmsMasterKeyVar => "KMS_MASTER_KEY_HEX"
    case EmailIndexKey => "EMAIL_INDEX_KEY_HEX"
    case ItemIndexKey => "ITEM_INDEX_KEY_HEX"
    case SearchIndexKey => "SEARCH_INDEX_KEY_HEX"
    case ObjectStoreMode => "OBJECT_STORE_MODE"
    case ScannerMode => "SCANNER_MODE"
    case ClamdHost => "CLAMD_HOST"
    case OcrMode => "OCR_MODE"
    case OcrUrl => "OCR_URL"
    case NotifyMode => "NOTIFY_MODE"
    case EmailMode => "EMAIL_MODE"
    case ModeVar => "MODE"
    case ProfileVar => "PROFILE"
    case LlmMode => "LLM_MODE"
  }

  datatype EnvKey =
    | Shared(global: Global)
    | Own(service: ServiceName, variable: Var)
    | Credential(service: ServiceName, envVar: string)

  /** `${prefix}_${envVar}`. */
  function Prefixed(service: ServiceName, rest: string): string {
    EnvPrefix(NameText(service)) + "_" + rest
  }

  function KeyText(k: EnvKey): string {
    match k
    case Shared(g) => GlobalText(g)
    case Own(s, v) => Prefixed(s, VarText(v))
    case Credential(s, envVar) => Prefixed(s, envVar)
  }

  function PrefixText(service: ServiceName): string {
    match service
    case Identity => "IDENTITY"
    case Profile => "PROFILE"
    case Assets => "ASSETS"
    case Plaid => "PLAID"
    case Documents => "DOCUMENTS"
    case Vault => "VAULT"
    case Settlement => "SETTLEMENT"
    case Notifications => "NOTIFICATIONS"
    case AiAssistant => "AI_ASSISTANT"
    case Audit => "AUDIT"
  }

  /** So `Own(Documents, OcrUrl)` is the `DOCUMENTS_OCR_URL` the source writes out in full. */
  lemma PrefixIs(service: ServiceName)
    ensures EnvPrefix(NameText(service)) == PrefixText(service)
  {
  }

  /** A variable name free to be a credential: nothing else is written the same, in the file or in a
      process. */
  ghost predicate Unreserved(envVar: string) {
    && (forall v :: VarText(v) != envVar)
    && (forall g :: GlobalText(g) != envVar)
    && envVar != "PLAID_MODE"
  }

  ghost predicate ProperKey(k: EnvKey) {
    k.Credential? ==> Unreserved(k.envVar)
  }

  // ---------------------------------------------------------------- why texts differ

  /** Length and second character tell the shared names apart. */
  function GlobalAt(length: nat, second: char): Global {
    if length == 10 then (if second == 'T' then StackMode else AwsRegion)
    else if length == 16 then
      (if second == 'T' then StackAddressing else if second == 'W' then AwsEndpointUrl else SesFromAddress)
    else if length == 13 then KafkaBrokers
    else if length == 17 then AwsAccessKeyId
    else if length == 21 then AwsSecretAccessKey
    else if length == 19 then (if second == 'B' then ObjectStoreBucket else NodeExtraCaCerts)
    else if length == 5 then RpId
    else if length == 9 then RpOrigin
    else RpName
  }

  lemma GlobalFound(g: Global)
    ensures |GlobalText(g)| >= 5 && GlobalAt(|GlobalText(g)|, GlobalText(g)[1]) == g
  {
  }

  function VarAt(length: nat, second: char): Var {
    if length == 12 then (if second == 'A' then DatabaseUrlVar else ScannerMode)
    else if length == 8 then (if second == 'M' then KmsModeVar else if second == 'C' then OcrMode else LlmMode)
    else if length == 14 then AwsKmsKeyIdVar
    else if length == 18 then (if second == 'M' then KmsMasterKeyVar else ItemIndexKey)
    else if length == 19 then EmailIndexKey
    else if length == 20 then SearchIndexKey
    else if length == 17 then ObjectStoreMode
    else if length == 10 then (if second == 'L' then ClamdHost else EmailMode)
    else if length == 7 then (if second == 'C' then OcrUrl else ProfileVar)
    else if length == 11 then NotifyMode
    else ModeVar
  }

  lemma VarFound(v: Var)
    ensures |VarText(v)| >= 4 && VarAt(|VarText(v)|, VarText(v)[1]) == v
  {
  }

  /** The first three characters of a prefix name its service. */
  function ServiceAt(first: char, second: char, third: char): Option<ServiceName> {
    if first == 'I' then Some(Identity)
    else if first == 'P' then (if second == 'R' then Some(Profile) else Some(Plaid))
    else if first == 'A' then
      (if second == 'S' then Some(Assets) else if second == 'I' then Some(AiAssistant)
       else if second == 'U' then Some(Audit) else None)
    else if first == 'D' then Some(Documents)
    else if first == 'V' then Some(Vault)
    else if first == 'S' then (if second == 'E' && third == 'T' then Some(Settlement) else None)
    else if first == 'N' then (if third == 'T' then Some(Notifications) else None)
    else None
  }

  function ServiceOf(key: string): Option<ServiceName>
    requires |key| >= 3
  {
    ServiceAt(key[0], key[1], key[2])
  }

  lemma GlobalIsNoService(g: Global)
    ensures |GlobalText(g)| >= 3 && ServiceOf(GlobalText(g)) == None
  {
  }

  lemma PrefixFound(service: ServiceName)
    ensures var p := EnvPrefix(NameText(service)); |p| >= 3 && ServiceOf(p) == Some(service)
  {
  }

  lemma PrefixedFound(service: ServiceName, rest: string)
    ensures |Prefixed(service, rest)| >= 3 && ServiceOf(Prefixed(service, rest)) == Some(service)
  {
    PrefixFound(service);
    hide EnvPrefix, NameText, ServiceAt;
  }

  lemma PrefixedInjective(s: ServiceName, a: string, t: ServiceName, b: string)
    requires Prefixed(s, a) == Prefixed(t, b)
    ensures s == t && a == b
  {
    PrefixedFound(s, a);
    PrefixedFound(t, b);
    hide EnvPrefix, NameText, ServiceOf;
    var n := |EnvPrefix(NameText(s))| + 1;
    assert Prefixed(s, a)[n..] == a && Prefixed(t, b)[n..] == b;
  }

  /** Two proper keys written alike are the same key. */
  lemma KeyTextInjective(j: EnvKey, k: EnvKey)
    requires ProperKey(j) && ProperKey(k)
    requires KeyText(j) == KeyText(k)
    ensures j == k
  {
    if j.Shared? != k.Shared? {
      SharedIsNotPrefixed(if j.Shared? then j else k, if j.Shared? then k else j);
    } else if j.Shared? {
      GlobalFound(j.global);
      GlobalFound(k.global);
    } else {
      PrefixedTextInjective(j, k);
    }
  }

  lemma SharedIsNotPrefixed(j: EnvKey, k: EnvKey)
    requires j.Shared? && !k.Shared?
    ensures KeyText(j) != KeyText(k)
  {
    hide GlobalText, Prefixed, ServiceAt;
    GlobalIsNoService(j.global);
    PrefixedFound(k.service, if k.Own? then VarText(k.variable) else k.envVar);
  }

  lemma PrefixedTextInjective(j: EnvKey, k: EnvKey)
    requires ProperKey(j) && ProperKey(k) && !j.Shared? && !k.Shared?
    requires KeyText(j) == KeyText(k)
    ensures j == k
  {
    hide Prefixed, VarText, GlobalText;
    var a := if j.Own? then VarText(j.variable) else j.envVar;
    var b := if k.Own? then VarText(k.variable) else k.envVar;
    PrefixedInjective(j.service, a, k.service, b);
    if j.Own? && k.Own? {
      VarFound(j.variable);
      VarFound(k.variable);
    }
  }
}
