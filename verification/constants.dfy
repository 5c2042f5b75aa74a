/** Action names, environment variable names, file names and the response
    strings the coordinator exchanges with its clients. */
module Constants {
  const ActionPreDump: string := "pre-dump"
  const ActionPostDump: string := "post-dump"
  const ActionPreRestore: string := "pre-restore"
  const ActionPostRestore: string := "post-restore"
  const ActionNetworkLock: string := "network-lock"
  const ActionNetworkUnlock: string := "network-unlock"
  const ActionPreStream: string := "pre-stream"
  const ActionPostStream: string := "post-stream"
  const ActionAddDependencies: string := "add-dependencies"

  /** The CRIU hook currently running. */
  const EnvAction: string := "CRTOOLS_SCRIPT_ACTION"
  /** The base directory of the CRIU images. */
  const EnvImageDir: string := "CRTOOLS_IMAGE_DIR"

  /** Unix socket of the image streamer used by `criu dump`. */
  const ImgStreamerCaptureSocketName: string := "streamer-capture.sock"
  const ConfigFile: string := "criu-coordinator.json"

  const MessageAck: string := "ACK"
  const MessageSyn: string := "SYN"
  const MessageImgAck: string := "IMG_ACK"
  const MessageTimeout: string := "timeout"
  const MessageNotConnected: string := "not connected"
  const MessageCheckpointExists: string := "checkpoint is already created"
  const MessageAlreadyConnected: string := "client already connected"

  /** Client-side defaults of the command line and the configuration file. */
  const DefaultAddress: string := "127.0.0.1"
  const DefaultPort: string := "8080"

  /** The id under which the Kubernetes helper talks to the server. */
  const KubescrId: string := "kubescr"
}
