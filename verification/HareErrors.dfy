/** Return codes of the library (include/ErrorCodes.hpp). */
module HareErrors {

  datatype HareError =
    | AllGood
    | InvalidAmqpVersion
    | TimeoutOccured
    | PublishError
    | NotInitialized
    | InitializeFailure
    | InvalidParameters
    | ProducerCreationFailed
    | ConsumerCreationFailed
    | ThreadAlreadyRunning
    | ThreadNotRunning
    | ServerConnectionFailure
    | ServerAuthenticationFailure
    | ServerExceptionResponse
    | UnableToSubscribe
    | ProducerQueueFull
    | UnableToOpenChannel
    | UnableToCloseChannel
    | ChannelException
    | NoRpcReply

  predicate NoError(e: HareError) {
    e == AllGood
  }

  predicate ServerFailure(e: HareError) {
    e == ServerConnectionFailure || e == ServerExceptionResponse
  }

  datatype Option<+T> = None | Some(value: T)
}
