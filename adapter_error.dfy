/**
 * The adapter's own error type: either a protocol-library error or an I/O
 * error, with the conversions between them and `Display` delegation.
 */
module AdapterErrors {

  /** The `std::io::ErrorKind`s the core distinguishes. */
  datatype IoErrorKind = WouldBlock | UnexpectedEof | TimedOut | Other

  /** `std::io::Error`: its kind and the text it displays. */
  datatype IoError = IoError(kind: IoErrorKind, message: string)

  /** `ssh2::Error`: a libssh2 error code and its message. */
  datatype Ssh2Error = Ssh2Error(code: int, message: string)

  /** libssh2's "would block" and "timeout" codes. */
  const LIBSSH2_ERROR_EAGAIN: int := -37
  const LIBSSH2_ERROR_TIMEOUT: int := -9

  datatype Error = SSH2(ssh: Ssh2Error) | IO(io: IoError)

  /** `std::io::Error::from(ssh2::Error)`: the io error wraps the protocol error and
    * takes its kind from the code. */
  function IoFromSsh2(e: Ssh2Error): (r: IoError)
    ensures r.kind == WouldBlock <==> e.code == LIBSSH2_ERROR_EAGAIN
    ensures r.message == e.message
  {
    var kind :=
      if e.code == LIBSSH2_ERROR_EAGAIN then WouldBlock
      else if e.code == LIBSSH2_ERROR_TIMEOUT then TimedOut
      else Other;
    IoError(kind, e.message)
  }

  function FromSsh2(e: Ssh2Error): Error
  {
    SSH2(e)
  }

  function FromIo(e: IoError): Error
  {
    IO(e)
  }

  /** `Into<std::io::Error>`. */
  function IntoIo(err: Error): IoError
  {
    match err
    case SSH2(e) => IoFromSsh2(e)
    case IO(e) => e
  }

  /** `Display` writes the wrapped error's own text. */
  function Display(err: Error): string
  {
    match err
    case SSH2(e) => e.message
    case IO(e) => e.message
  }

  /** An io error survives the trip through the adapter's error type unchanged. */
  lemma IoRoundTrip(e: IoError)
    ensures IntoIo(FromIo(e)) == e
  {
  }

  /** The two conversions wrap without loss: distinct errors stay distinct and
    * the variant records which library the error came from. */
  lemma ConversionsInjective(a: Ssh2Error, b: Ssh2Error, x: IoError, y: IoError)
    ensures FromSsh2(a) == FromSsh2(b) <==> a == b
    ensures FromIo(x) == FromIo(y) <==> x == y
    ensures FromSsh2(a).SSH2? && FromIo(x).IO? && FromSsh2(a) != FromIo(x)
  {
  }

  /** A protocol error becomes an io error through `io::Error::from` on the inner error;
    * the displayed text is the same before and after. */
  lemma Ssh2IntoIo(e: Ssh2Error)
    ensures IntoIo(FromSsh2(e)) == IoFromSsh2(e)
    ensures IntoIo(FromSsh2(e)).message == Display(FromSsh2(e))
  {
  }

  /** Display delegates to the wrapped error for both variants. */
  lemma DisplayDelegates(e: Ssh2Error, x: IoError)
    ensures Display(FromSsh2(e)) == e.message
    ensures Display(FromIo(x)) == x.message
  {
  }

  /** `ssh2::Error::from_errno`: the message table of libssh2 is not modelled. */
  function FromErrno(code: int): (e: Ssh2Error)
    ensures e.code == code
  {
    Ssh2Error(code, "")
  }

  /** The async adapter's test for "would block": the io kind of the error rebuilt from its code. */
  predicate IsWouldBlockSsh2(e: Ssh2Error)
  {
    IoFromSsh2(FromErrno(e.code)).kind == WouldBlock
  }

  lemma WouldBlockIsEagain(e: Ssh2Error)
    ensures IsWouldBlockSsh2(e) <==> e.code == LIBSSH2_ERROR_EAGAIN
  {
  }
}
