/** The client protocols of the gateway, `src/protocol/model.rs`. */
module Protocols {
  datatype Protocol = ChatCompletions | Responses | Messages
}
