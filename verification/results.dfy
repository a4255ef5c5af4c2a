/** Failure-carrying results shared by every decoder and by the interpreter.
    Each `Error` constructor stands for one fatal `error()` call (or failed
    `assert`) of the engine; warnings are logs and are not results. */
module Results {

  datatype Error =
    // Bounded reader and byte streams.
    | Overread
    | EndOfStream
    // Datum decoding.
    | WrongDatumType(expected: nat, got: nat)
    | UnknownDatumType(tag: int)
    | PayloadPun(tag: int)
    // RIFF preamble.
    | NotRiff(id: nat)
    | NotRate(id: nat)
    | NotData(tag: int)
    // Record parsers.
    | EventHandlerSection
    | UnknownSection(tag: int)
    | FileNumberSection
    // Interpreter.
    | UnknownInstruction(tag: int)
    | UnknownOpcode(opcode: int)
    | UnknownOperand(tag: int)
    | UnknownScope(scope: int)
    | NoSuchAsset(id: nat)
    | NotAnAsset(tag: int)
    | NullAsset
    | AssignToParameter
    | NoParameters
    | IndexOutOfRange(index: nat)
    | UnknownFunction(id: nat)
    | UnknownMethod(id: nat)
    | AssertionFailed
    | SoundNotSupported
    | UnsupportedAsset(kind: nat)
    | OutOfFuel
    // Movie reader.
    | ExpectedRoot(tag: int)
    | UnknownMovieSection(tag: int)
    | BadHeaderChunkSize(size: nat)
    | ExpectedHeaderChunk(id: nat)
    | UnknownEncoding(encoding: nat)
    | ExternalDecoder
    // Engine.
    | BootNotLoaded
    | ZeroStepRate
    | DivideByZero

  datatype Result<+T> = Ok(value: T) | Fail(error: Error) {

    predicate IsFailure() {
      Fail?
    }

    function PropagateFailure<U>(): Result<U>
      requires Fail?
    {
      Fail(error)
    }

    function Extract(): T
      requires Ok?
    {
      value
    }
  }

  datatype Option<+T> = None | Some(value: T)
}
