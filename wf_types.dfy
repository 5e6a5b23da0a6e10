/** Values shared by the WF_REQUEST migration: the stored blob, the request it decodes to,
    and the exceptions the DAO lets escape. */
module WfTypes {

  type Bytes = seq<bv8>

  /** A workflow request. Only its uuid is looked at by the migration; the rest of the
      object is carried as an opaque payload. */
  datatype WorkflowRequest = WorkflowRequest(uuid: string, payload: Bytes)

  datatype KeyRotationException = KeyRotationException(message: string)

  /** The unchecked exceptions a chunk read can raise and does not catch: a NULL blob
      reaching the byte stream, and an object of another class reaching the cast. */
  datatype RuntimeException = NullPointerException | ClassCastException

  /** What escapes a chunk read: the declared exception, or an unchecked one. */
  datatype Thrown = KeyRotation(exception: KeyRotationException) | Unchecked(runtime: RuntimeException)

  const ConnectFailureMessage: string := "Error while connecting to new identity DB."
  const AccessFailureMessage: string := "Error while accessing new identity DB."
}
