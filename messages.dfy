/** The messages the server writes to WebSocket clients, and the record of a write. */
module Messages {
  import opened Wrappers
  import opened JsonValue
  import opened AnalysisModel

  /** An accepted WebSocket; only its identity matters to the model. */
  datatype Socket = Socket(handle: nat)

  /** `get_connection_stats()`. */
  datatype ConnectionStats = ConnectionStats(totalConnections: nat, activeSubscriptions: nat, clients: seq<string>)

  /** Why a client message was answered with an `error` message. */
  datatype ErrorReason =
    | InvalidJson                  // "Invalid JSON format"
    | AnalysisIdRequired           // "analysis_id required for subscription"
    | UnknownType(messageType: Json)  // "Unknown message type: ..."
    | ProcessingFailed             // "Error processing message: ..."

  /** One JSON message written to a socket, by its `type` field. */
  datatype Message =
    | AnalysisUpdate(analysisId: string, data: Json)
    | SubscriptionConfirmed(analysisId: string, subscriber: Option<string>)
    | UnsubscriptionConfirmed(analysisId: string)
    | Pong(timestamp: Json)
    | StatusResponse(stats: ConnectionStats, clientId: string)
    | Error(reason: ErrorReason)
    | Broadcast(messageType: Json, content: Json)
    | NewAnalysisStarted(analysis: AnalysisRecord)
    | AnalysisDeleted(analysis: AnalysisRecord)

  /** A successful `send_text`: which client, over which socket, what. */
  datatype Delivery = Delivery(client: string, socket: Socket, message: Message)
}
