/** The errors the core returns. Go reports them as formatted strings; the
    model keeps the kind and the values the message is built from. */
module Errors {
  import Kubernetes

  datatype Error =
    /** A get or put on the Vault storage failed. */
    | StorageFailure
    /** The stored configuration record does not decode into `PluginConfig`. */
    | MalformedConfig
    /** `url.Parse` rejected `base_url`. */
    | InvalidBaseUrl(baseUrl: string)
    /** `getClusterRoleName` knows no role for this service-account type. */
    | InvalidServiceAccountType(saType: string)
    /** The read path rejected the type; the message lists the allowed types. */
    | TypeNotAllowed(saType: string, allowed: seq<string>)
    /** The read path was called without field data. */
    | MissingFieldData
    /** A Kubernetes client call failed. */
    | Remote(cause: Kubernetes.KubeError)
    /** The new service account does not have exactly one token secret. */
    | UnexpectedSecretCount(count: nat)
    /** `time.ParseDuration` rejected the effective TTL. */
    | InvalidDuration(ttl: int)
}
