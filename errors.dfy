/** The exception classes raised by the wrappers, and the `GLStateError` value
    with its status code (lib/opengl-aux/error.rb). */
module Errors {
  import opened Wrappers

  /** The exception classes that the core raises, and the standard classes they
      derive from. `LocalJumpError` is what Ruby raises for a `yield` without a block. */
  datatype ErrorClass =
    | StandardError
    | ArgumentError
    | LocalJumpError
    | GLError
    | GLCreateError
    | GLStateError

  /** The direct superclass; `StandardError` is the root considered here. */
  function Superclass(c: ErrorClass): Option<ErrorClass> {
    match c
    case StandardError => None
    case ArgumentError => Some(StandardError)
    case LocalJumpError => Some(StandardError)
    case GLError => Some(StandardError)
    case GLCreateError => Some(GLError)
    case GLStateError => Some(GLError)
  }

  /** Number of superclass steps from `c` up to `StandardError`. */
  function Depth(c: ErrorClass): nat {
    match c
    case StandardError => 0
    case ArgumentError => 1
    case LocalJumpError => 1
    case GLError => 1
    case GLCreateError => 2
    case GLStateError => 2
  }

  /** `c <= k` in Ruby: `c` is `k` or one of its descendants, so `rescue k` catches a `c`. */
  predicate IsA(c: ErrorClass, k: ErrorClass)
    decreases Depth(c)
  {
    c == k || (Superclass(c).Some? && IsA(Superclass(c).value, k))
  }

  /** The subclass relation is transitive: rescuing an ancestor catches every descendant. */
  lemma {:induction false} IsATransitive(a: ErrorClass, b: ErrorClass, c: ErrorClass)
    requires IsA(a, b) && IsA(b, c)
    ensures IsA(a, c)
    decreases Depth(a)
  {
    if a != b {
      IsATransitive(Superclass(a).value, b, c);
    }
  }

  /** `rescue GL::GLError` catches exactly the three GL error classes: both
      `GLCreateError` and `GLStateError` are subclasses of `GLError`, and
      neither is a subclass of the other. */
  lemma RescueGLError(c: ErrorClass)
    ensures IsA(c, GLError) <==> c in {GLError, GLCreateError, GLStateError}
    ensures IsA(c, GLError) ==> IsA(c, StandardError)
    ensures !IsA(GLCreateError, GLStateError) && !IsA(GLStateError, GLCreateError)
  {
    if IsA(c, GLError) {
      IsATransitive(c, GLError, StandardError);
    }
  }

  /** A raised exception: its class, the message given to `new` (nil when none)
      and, for `GLStateError`, the context's status code. */
  datatype Exception = Exception(cls: ErrorClass, msg: Option<string>, code: int)

  function ClassName(c: ErrorClass): string {
    match c
    case StandardError => "StandardError"
    case ArgumentError => "ArgumentError"
    case LocalJumpError => "LocalJumpError"
    case GLError => "GL::GLError"
    case GLCreateError => "GL::GLCreateError"
    case GLStateError => "GL::GLStateError"
  }

  /** Ruby's `Exception#message`: the message given, or the class name when it was nil. */
  function Message(e: Exception): string {
    if e.msg.Some? then e.msg.value else ClassName(e.cls)
  }

  /** `raise cls, msg` for a class whose constructor takes only a message. */
  function Raise(cls: ErrorClass, msg: string): (e: Exception)
    requires cls != GLStateError
    ensures e.cls == cls && Message(e) == msg
  {
    Exception(cls, Some(msg), 0)
  }

  /** `GLStateError.new(code, msg)`: stores the code; the message is `msg`. */
  function NewStateError(code: int, msg: Option<string>): (e: Exception)
    ensures e.cls == GLStateError && e.code == code
    ensures Message(e) == if msg.Some? then msg.value else "GL::GLStateError"
  {
    Exception(GLStateError, msg, code)
  }

  /** `GLStateError#exception(msg)`, which `raise err, msg` calls: with a message
      it builds a new error carrying the same code, without one it is the receiver. */
  function StateErrorException(e: Exception, msg: Option<string>): (r: Exception)
    requires e.cls == GLStateError
    ensures r.cls == GLStateError && r.code == e.code
    ensures msg.Some? ==> Message(r) == msg.value
    ensures msg.None? ==> r == e
  {
    if msg.Some? then NewStateError(e.code, msg) else e
  }

  /** `raise ArgumentError, "No block given"`, shared by the preserve_binding helpers. */
  function NoBlockGiven(): (e: Exception)
    ensures e.cls == ArgumentError
  {
    Raise(ArgumentError, "No block given")
  }

  /** Ruby's `Integer#to_s`, as string interpolation prints an integer. */
  function Decimal(n: int): string {
    if n < 0 then "-" + Digits(-n) else Digits(n)
  }

  function Digits(n: nat): string
    decreases n
  {
    if n < 10 then [DigitChar(n)] else Digits(n / 10) + [DigitChar(n % 10)]
  }

  function DigitChar(d: nat): char
    requires d < 10
  {
    ('0' as int + d) as char
  }
}
