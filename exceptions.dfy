/**
 * The framework's exceptions (include/Exception.h, src/Exception.cpp): an exception object
 * carries a message, the source file and line it was thrown at, and the name of its class.
 * `Failure` is the value the pure parts of the model return in place of throwing.
 */
module Exceptions {
  import opened Wrappers
  import Text

  /** The named exception classes of the framework. */
  datatype ExceptionKind = OutOfRange | NotImplemented | OutOfMemory

  /** The name each class passes to `NamedException`. */
  function KindName(k: ExceptionKind): (name: string)
    ensures k.NotImplemented? ==> name == "not implemented exception"
  {
    match k
    case OutOfRange => "out of range exception"
    case NotImplemented => "not implemented exception"
    case OutOfMemory => "out of memory exception"
  }

  /** Each class has its own name, so the name identifies the class. */
  lemma KindNamesDistinct(k: ExceptionKind, k': ExceptionKind)
    requires KindName(k) == KindName(k')
    ensures k == k'
  {
    assert KindName(k)[0..5] == KindName(k')[0..5];
  }

  /** What a `PICMDK_THROW` of class `kind` with `message` carries, apart from its location. */
  datatype Failure = Failure(kind: ExceptionKind, message: string)

  const TwoTo31: int := 0x8000_0000
  const TwoTo32: int := 0x1_0000_0000

  /** The cast `(int)bytes` of a `std::size_t`: the value reduced to 32-bit two's complement. */
  function Int32Of(n: nat): (r: int)
    ensures -TwoTo31 <= r < TwoTo31
    ensures (r - n) % TwoTo32 == 0
    ensures n < TwoTo31 ==> r == n
  {
    (n + TwoTo31) % TwoTo32 - TwoTo31
  }

  function OutOfMemoryMessage(bytes: nat): string {
    "Unable to allocate " + Text.DecimalString(Int32Of(bytes)) + " byte(s) of memory"
  }

  class Exception {
    var file: Option<string>
    var line: int
    var message: string
    const name: string

    /** `NamedException(message, name)`: no location yet. */
    constructor Named(message: string, name: string)
      ensures this.message == message && this.name == name
      ensures file == None && line == 0
    {
      this.file := None;
      this.line := 0;
      this.message := message;
      this.name := name;
    }

    /** `OutOfMemoryException(bytes)`. */
    constructor OutOfMemory(bytes: nat)
      ensures message == OutOfMemoryMessage(bytes) && name == KindName(ExceptionKind.OutOfMemory)
      ensures file == None && line == 0
    {
      this.file := None;
      this.line := 0;
      this.message := OutOfMemoryMessage(bytes);
      this.name := KindName(ExceptionKind.OutOfMemory);
    }

    /** `NotImplementedException(message)`. */
    constructor NotImplemented(message: string)
      ensures this.message == message && name == KindName(ExceptionKind.NotImplemented)
      ensures file == None && line == 0
    {
      this.file := None;
      this.line := 0;
      this.message := message;
      this.name := KindName(ExceptionKind.NotImplemented);
    }

    /** `InterData::OutOfRangeException(message)` (include/InterData.h). */
    constructor OutOfRange(message: string)
      ensures this.message == message && name == KindName(ExceptionKind.OutOfRange)
      ensures file == None && line == 0
    {
      this.file := None;
      this.line := 0;
      this.message := message;
      this.name := KindName(ExceptionKind.OutOfRange);
    }

    function GetName(): string
      reads this
    {
      name
    }

    function GetFile(): Option<string>
      reads this
    {
      file
    }

    function GetLine(): int
      reads this
    {
      line
    }

    function What(): string
      reads this
    {
      message
    }

    method SetLocation(file: string, line: int)
      modifies this
      ensures this.file == Some(file) && this.line == line
      ensures message == old(message)
    {
      this.file := Some(file);
      this.line := line;
    }

    /** `Exception::operator=`: copies location and message; the class name stays. */
    method Assign(e: Exception)
      modifies this
      ensures file == old(e.file) && line == old(e.line) && message == old(e.message)
      ensures What() == old(e.What())
    {
      var f, l, m := e.file, e.line, e.message;
      file := f;
      line := l;
      message := m;
    }
  }

  /** `operator<<(ostream&, const Exception&)`. */
  function Format(e: Exception): (s: string)
    reads e
    ensures |s| > |e.name| + 2 + |e.message| + 1
    ensures s[..|e.name| + 2 + |e.message| + 1] == e.name + ": " + e.message + "\n"
    ensures e.file.None? <==> s[|e.name| + 2 + |e.message| + 1..] == " at unknown location\n"
    ensures e.file.Some? ==> s[|e.name| + 2 + |e.message| + 1..] == " at " + e.file.value + ":" + Text.DecimalString(e.line) + "\n"
  {
    var head := e.name + ": " + e.message + "\n";
    var tail := if e.file.Some? then " at " + e.file.value + ":" + Text.DecimalString(e.line) + "\n"
                else " at unknown location\n";
    assert (head + tail)[|head|..] == tail;
    LocatedTail(e.file, e.line);
    head + tail
  }

  /** The location line of a located exception ends with a digit, so it is never the unknown one. */
  lemma LocatedTail(file: Option<string>, line: int)
    ensures file.Some? ==> " at " + file.value + ":" + Text.DecimalString(line) + "\n" != " at unknown location\n"
  {
    if file.Some? {
      var d := Text.DecimalString(line);
      var t := " at " + file.value + ":" + d + "\n";
      assert t[|t| - 2] == d[|d| - 1];
      assert Text.IsDigit(t[|t| - 2]);
    }
  }

  /**
   * `PICMDK_THROW(kind, (message))`: construct the exception, then record the location of
   * the throw site before throwing it. Only the classes whose constructor takes a message
   * can be thrown this way; `OutOfMemoryException` takes a byte count (`ThrowOutOfMemory`).
   */
  method Throw(f: Failure, file: string, line: int) returns (e: Exception)
    requires f.kind != ExceptionKind.OutOfMemory
    ensures fresh(e)
    ensures e.name == KindName(f.kind) && e.What() == f.message
    ensures e.file == Some(file) && e.line == line
  {
    if f.kind == ExceptionKind.OutOfRange {
      e := new Exception.OutOfRange(f.message);
    } else {
      e := new Exception.NotImplemented(f.message);
    }
    e.SetLocation(file, line);
  }

  /** `PICMDK_THROW(OutOfMemoryException, (bytes))`: the message is built from the byte count. */
  method ThrowOutOfMemory(bytes: nat, file: string, line: int) returns (e: Exception)
    ensures fresh(e)
    ensures e.name == KindName(ExceptionKind.OutOfMemory) && e.What() == OutOfMemoryMessage(bytes)
    ensures e.file == Some(file) && e.line == line
  {
    e := new Exception.OutOfMemory(bytes);
    e.SetLocation(file, line);
  }
}
