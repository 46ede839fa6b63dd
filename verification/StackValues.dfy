/** What a generated file says, key by key: where everything is reached under each addressing, as the compose file
    names and publishes it, and what is selected in each mode. */
module StackValues {
  import opened CredentialGraph
  import opened EnvGeneration
  import opened EnvKeys
  import opened EnvLookup
  import opened OrderedMap
  import opened StackPipeline
  import opened Topology
  import opened Wrappers

  /** The file says `value` under `key`. */
  ghost predicate Tells(plan: Plan, mints: Mints, key: string, value: string) {
    Get(Environment(plan, mints), key) == Some(value)
  }

  lemma Shows(plan: Plan, mints: Mints, g: Global)
    requires WellFormed(plan.graph)
    ensures Tells(plan, mints, GlobalText(g), GlobalValue(plan.mode, plan.addressing, g))
  {
    hide WellFormed, Environment, KeyText, GlobalValue, Get;
    PlannedValue(plan, mints, Shared(g));
    SharedKeyText(g);
  }

  lemma SharedKeyText(g: Global)
    ensures KeyText(Shared(g)) == GlobalText(g)
  {
  }

  lemma ShowsOwn(plan: Plan, mints: Mints, s: ServiceName, v: Var)
    requires WellFormed(plan.graph) && Written(s, v)
    ensures OwnValue(plan.mode, plan.addressing, s, v).Fixed? ==>
            Tells(plan, mints, Prefixed(s, VarText(v)), OwnValue(plan.mode, plan.addressing, s, v).text)
  {
    hide WellFormed, Environment, OwnValue, Get, Prefixed, VarText, Written;
    PlannedValue(plan, mints, Own(s, v));
  }

  // ---------------------------------------------------------------- shared

  /** Brokers, cloud and trust: in the network by container name, on the host by published port, and over TLS
      through the proxy in production. */
  lemma InfrastructureValues(plan: Plan, mints: Mints)
    requires WellFormed(plan.graph)
    ensures var host, production := plan.addressing.Host?, plan.mode.Production?;
            && Tells(plan, mints, "STACK_MODE", if production then "production" else "development")
            && Tells(plan, mints, "STACK_ADDRESSING", if host then "host" else "compose")
            && Tells(plan, mints, "KAFKA_BROKERS", if host then "localhost:9092" else "redpanda:29092")
            && Tells(plan, mints, "AWS_ENDPOINT_URL",
                     if production then (if host then "https://localhost:8443" else "https://aws-tls")
                     else if host then "http://localhost:4566" else "http://localstack:4566")
            && Tells(plan, mints, "NODE_EXTRA_CA_CERTS",
                     if !production then "" else if host then "./.stack-certs/aws-tls.crt" else "/certs/aws-tls.crt")
  {
    hide Tells, WellFormed;
    Shows(plan, mints, StackMode);
    Shows(plan, mints, StackAddressing);
    Shows(plan, mints, KafkaBrokers);
    Shows(plan, mints, AwsEndpointUrl);
    Shows(plan, mints, NodeExtraCaCerts);
  }

  /** What is the same everywhere. */
  lemma ConstantValues(plan: Plan, mints: Mints)
    requires WellFormed(plan.graph)
    ensures Tells(plan, mints, "AWS_REGION", "us-east-1")
    ensures Tells(plan, mints, "AWS_ACCESS_KEY_ID", "test") && Tells(plan, mints, "AWS_SECRET_ACCESS_KEY", "test")
    ensures Tells(plan, mints, "OBJECT_STORE_BUCKET", "estate-documents-local")
    ensures Tells(plan, mints, "SES_FROM_ADDRESS", "no-reply@stack.estate.local")
    ensures Tells(plan, mints, "RP_ID", "localhost") && Tells(plan, mints, "RP_ORIGIN", "http://localhost:3000")
    ensures Tells(plan, mints, "RP_NAME", "Estate Platform (local stack)")
  {
    hide Tells, WellFormed;
    Shows(plan, mints, AwsRegion);
    Shows(plan, mints, AwsAccessKeyId);
    Shows(plan, mints, AwsSecretAccessKey);
    Shows(plan, mints, ObjectStoreBucket);
    Shows(plan, mints, SesFromAddress);
    Shows(plan, mints, RpId);
    Shows(plan, mints, RpOrigin);
    Shows(plan, mints, RpName);
  }

  // ---------------------------------------------------------------- each service

  /** A service's database: the cluster's container, the port it publishes, and the database's name. */
  function Container(s: ServiceName): (string, string, string) {
    match s
    case Identity => ("pg-auth", "5433", "auth")
    case Profile => ("pg-core", "5434", "core")
    case Assets => ("pg-financial", "5435", "financial")
    case Plaid => ("pg-financial", "5435", "financial")
    case Documents => ("pg-documents", "5436", "documents")
    case Vault => ("pg-vault", "5437", "vault")
    case Settlement => ("pg-core", "5434", "core")
    case Notifications => ("pg-core", "5434", "core")
    case AiAssistant => ("pg-core", "5434", "core")
    case Audit => ("pg-audit", "5438", "audit")
  }

  function DatabaseAt(s: ServiceName, addressing: Addressing): string {
    var (host, port, database) := Container(s);
    var place := if addressing.Host? then "localhost:" + port else host + ":5432";
    "postgres://estate:estate_dev@" + place + "/" + database
  }

  lemma ClusterIs(s: ServiceName)
    ensures Container(s) == (Record(s).cluster.host, Record(s).cluster.hostPort, Record(s).cluster.database)
    ensures Record(s).hasKek <==> !s.Vault? && !s.Audit?
  {
  }

  /** Every service's database is addressed as its own cluster; every service but vault and audit uses its own key
      of the cloud's key store, and those two have none. */
  lemma ServiceValues(plan: Plan, mints: Mints, s: ServiceName)
    requires WellFormed(plan.graph)
    ensures Tells(plan, mints, Prefixed(s, "DATABASE_URL"), DatabaseAt(s, plan.addressing))
    ensures if s.Vault? || s.Audit? then
              && Get(Environment(plan, mints), Prefixed(s, "KMS_MODE")) == None
              && Get(Environment(plan, mints), Prefixed(s, "AWS_KMS_KEY_ID")) == None
              && Get(Environment(plan, mints), Prefixed(s, "KMS_MASTER_KEY_HEX")) == None
            else
              && Tells(plan, mints, Prefixed(s, "KMS_MODE"), "aws")
              && Tells(plan, mints, Prefixed(s, "AWS_KMS_KEY_ID"), "alias/estate-" + NameText(s) + "-kek")
  {
    hide Tells, WellFormed, Prefixed, Record, Environment, Get, NameText, DatabaseAt;
    ClusterIs(s);
    ShowsOwn(plan, mints, s, DatabaseUrlVar);
    DatabaseIs(s, plan.addressing);
    if s.Vault? || s.Audit? {
      Lookup(plan, mints, Own(s, KmsModeVar));
      Lookup(plan, mints, Own(s, AwsKmsKeyIdVar));
      Lookup(plan, mints, Own(s, KmsMasterKeyVar));
    } else {
      ShowsOwn(plan, mints, s, KmsModeVar);
      ShowsOwn(plan, mints, s, AwsKmsKeyIdVar);
    }
  }

  lemma DatabaseIs(s: ServiceName, addressing: Addressing)
    ensures DatabaseUrl(Record(s).cluster, addressing) == DatabaseAt(s, addressing)
  {
    hide Record, Container;
    ClusterIs(s);
  }

  // ---------------------------------------------------------------- adapters

  /** Documents reads and scans for real, at the scanner and the reader of its addressing. */
  lemma DocumentValues(plan: Plan, mints: Mints)
    requires WellFormed(plan.graph)
    ensures var host := plan.addressing.Host?;
            && Tells(plan, mints, Prefixed(Documents, "OBJECT_STORE_MODE"), "s3")
            && Tells(plan, mints, Prefixed(Documents, "SCANNER_MODE"), "clamd")
            && Tells(plan, mints, Prefixed(Documents, "CLAMD_HOST"), if host then "localhost" else "clamav")
            && Tells(plan, mints, Prefixed(Documents, "OCR_MODE"), "tesseract")
            && Tells(plan, mints, Prefixed(Documents, "OCR_URL"),
                     if host then "http://localhost:8884" else "http://tesseract:8884")
  {
    hide Tells, WellFormed, Prefixed;
    ShowsOwn(plan, mints, Documents, ObjectStoreMode);
    ShowsOwn(plan, mints, Documents, ScannerMode);
    ShowsOwn(plan, mints, Documents, ClamdHost);
    ShowsOwn(plan, mints, Documents, OcrMode);
    ShowsOwn(plan, mints, Documents, OcrUrl);
  }

  /** Notices go out for real in both modes; the two services that need a provider are stubbed in development, and
      in production pinned to it and left out of every profile. */
  lemma CarrierValues(plan: Plan, mints: Mints)
    requires WellFormed(plan.graph)
    ensures var production := plan.mode.Production?;
            && Tells(plan, mints, Prefixed(Vault, "NOTIFY_MODE"), "http")
            && Tells(plan, mints, Prefixed(Settlement, "NOTIFY_MODE"), "http")
            && Tells(plan, mints, Prefixed(Profile, "NOTIFY_MODE"), "http")
            && Tells(plan, mints, Prefixed(Notifications, "EMAIL_MODE"), "ses")
            && Tells(plan, mints, Prefixed(Plaid, "MODE"), if production then "live" else "stub")
            && Tells(plan, mints, Prefixed(Plaid, "PROFILE"),
                     if production then "plaid-requires-live-credentials" else "plaid")
            && Tells(plan, mints, Prefixed(AiAssistant, "LLM_MODE"), if production then "anthropic" else "stub")
            && Tells(plan, mints, Prefixed(AiAssistant, "PROFILE"),
                     if production then "ai-assistant-requires-live-credentials" else "services")
  {
    hide Tells, WellFormed, Prefixed;
    ShowsOwn(plan, mints, Vault, NotifyMode);
    ShowsOwn(plan, mints, Settlement, NotifyMode);
    ShowsOwn(plan, mints, Profile, NotifyMode);
    ShowsOwn(plan, mints, Notifications, EmailMode);
    ShowsOwn(plan, mints, Plaid, ModeVar);
    ShowsOwn(plan, mints, Plaid, ProfileVar);
    ShowsOwn(plan, mints, AiAssistant, LlmMode);
    ShowsOwn(plan, mints, AiAssistant, ProfileVar);
  }
}
