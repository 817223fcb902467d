/** The node's configuration values (internal/config/types.go). */
module NodeConfig {
  import opened Prelude

  const CURRENT_VERSION: int := 2
  const MAX_FILE_BYTES: nat := 1024 * 1024

  datatype TransportMode = RelayMode | StandaloneMode | OtherMode(text: string)
  datatype PermissionProfile = ReadOnly | WorkspaceWrite | OtherProfile(text: string)

  datatype Host = Host(name: string, locale: string)
  datatype RelayConfig = RelayConfig(
    url: string, proxyURL: string, caBundleFile: string, connectTimeoutSeconds: int, credentialRef: string, proxyCredentialRef: string)
  datatype Identity = Identity(keyFile: string, privateKeyRef: string)
  datatype Codex = Codex(enabled: bool, binary: string, runtimeMode: string, home: string)
  datatype AgentInstance = AgentInstance(
    id: string, adapterType: string, displayName: string, enabled: bool, isDefault: bool, runtimeMode: string, codex: Option<Codex>)
  datatype Events = Events(maxAgeHours: int, maxSizeMiB: int)
  datatype Workspace = Workspace(
    id: string, displayName: string, path: string, allowedAgentInstances: seq<string>, defaultAgentInstance: string,
    permissionProfile: PermissionProfile, allowNetwork: bool)

  datatype Config = Config(
    configVersion: int, host: Host, mode: TransportMode, relay: RelayConfig, identity: Identity,
    agentInstances: seq<AgentInstance>, events: Events, workspaces: seq<Workspace>)
}
