/** The local stack's shape: services, clusters and addresses under each addressing. */
module Topology {
  import opened Wrappers

  datatype Mode = Development | Production

  function ModeText(mode: Mode): string {
    if mode.Production? then "production" else "development"
  }

  datatype Addressing = Compose | Host

  function AddressingText(addressing: Addressing): string {
    if addressing.Host? then "host" else "compose"
  }

  datatype ServiceName =
    | Identity | Profile | Assets | Plaid | Documents | Vault | Settlement | Notifications | AiAssistant | Audit

  function NameText(service: ServiceName): string {
    match service
    case Identity => "identity"
    case Profile => "profile"
    case Assets => "assets"
    case Plaid => "plaid"
    case Documents => "documents"
    case Vault => "vault"
    case Settlement => "settlement"
    case Notifications => "notifications"
    case AiAssistant => "ai-assistant"
    case Audit => "audit"
  }

  datatype Cluster = Cluster(host: string, database: string, hostPort: string)

  const AUTH := Cluster("pg-auth", "auth", "5433")
  const CORE := Cluster("pg-core", "core", "5434")
  const FINANCIAL := Cluster("pg-financial", "financial", "5435")
  const DOCUMENTS := Cluster("pg-documents", "documents", "5436")
  const VAULT := Cluster("pg-vault", "vault", "5437")
  const AUDIT := Cluster("pg-audit", "audit", "5438")

  /** `kekAlias` only matters as present or absent: what is written is the KMS key id. */
  datatype StackService = StackService(name: ServiceName, cluster: Cluster, port: Option<string>, hasKek: bool)

  const SERVICES := [
    StackService(Identity, AUTH, Some("3001"), true),
    StackService(Profile, CORE, Some("3002"), true),
    StackService(Assets, FINANCIAL, Some("3003"), true),
    StackService(Plaid, FINANCIAL, Some("3004"), true),
    StackService(Documents, DOCUMENTS, Some("3005"), true),
    StackService(Vault, VAULT, Some("3006"), false),
    StackService(Settlement, CORE, Some("3007"), true),
    StackService(Notifications, CORE, Some("3008"), true),
    StackService(AiAssistant, CORE, Some("3009"), true),
    StackService(Audit, AUDIT, None, false)
  ]

  /** Where a service stands in `SERVICES`. */
  function Place(service: ServiceName): (i: nat)
    ensures i < 10
  {
    match service
    case Identity => 0
    case Profile => 1
    case Assets => 2
    case Plaid => 3
    case Documents => 4
    case Vault => 5
    case Settlement => 6
    case Notifications => 7
    case AiAssistant => 8
    case Audit => 9
  }

  /** Every service name is deployed exactly once. */
  lemma PlaceFinds(service: ServiceName)
    ensures |SERVICES| == 10 && SERVICES[Place(service)].name == service
    ensures forall i :: 0 <= i < 10 && SERVICES[i].name == service ==> i == Place(service)
  {
  }

  function Record(service: ServiceName): StackService {
    PlaceFinds(service);
    SERVICES[Place(service)]
  }

  datatype Network = Network(
    kafkaBrokers: string, awsEndpoint: string, clamdHost: string, ocrUrl: string,
    region: string, objectStoreBucket: string)

  const NETWORK := Network("redpanda:29092", "http://localstack:4566", "clamav", "http://tesseract:8884",
    "us-east-1", "estate-documents-local")

  const HOST_NETWORK := Network("localhost:9092", "http://localhost:4566", "localhost", "http://localhost:8884",
    "us-east-1", "estate-documents-local")

  const TLS_AWS_ENDPOINT := "https://aws-tls"
  const TLS_AWS_ENDPOINT_HOST := "https://localhost:8443"
  const TLS_CA_PATH := "/certs/aws-tls.crt"
  const TLS_CA_PATH_HOST := "./.stack-certs/aws-tls.crt"

  function TlsCaPathFor(addressing: Addressing): string {
    if addressing.Host? then TLS_CA_PATH_HOST else TLS_CA_PATH
  }

  function NetworkFor(addressing: Addressing, mode: Mode): Network {
    var base := if addressing.Host? then HOST_NETWORK else NETWORK;
    if mode.Production? then
      base.(awsEndpoint := if addressing.Host? then TLS_AWS_ENDPOINT_HOST else TLS_AWS_ENDPOINT)
    else base
  }

  function DatabaseUrl(cluster: Cluster, addressing: Addressing): string {
    var place := if addressing.Host? then "localhost:" + cluster.hostPort else cluster.host + ":5432";
    "postgres://estate:estate_dev@" + place + "/" + cluster.database
  }

  /** The error stands for the exception thrown for a service without a port. */
  function ServiceUrl(service: ServiceName, addressing: Addressing): Result<string, string> {
    var port := Record(service).port;
    if port.None? then Err("no addressable service named " + NameText(service))
    else if addressing.Host? then Ok("http://localhost:" + port.value)
    else Ok("http://" + NameText(service) + ":" + port.value)
  }

  function KmsKeyIdFor(service: StackService): Option<string> {
    if service.hasKek then Some("alias/estate-" + NameText(service.name) + "-kek") else None
  }

  /** `name.toUpperCase().replace(/-/g, '_')` on an ASCII name. */
  function EnvPrefix(name: string): (prefix: string)
    ensures |prefix| == |name|
  {
    seq(|name|, i requires 0 <= i < |name| => PrefixChar(name[i]))
  }

  function PrefixChar(c: char): char {
    if 'a' <= c <= 'z' then c - 'a' + 'A' else if c == '-' then '_' else c
  }
}
