/**
 * The outcome of a command: accepted with a payload, rejected with a message,
 * or failed with an error; and the combinators over it, which mirror those of
 * an ordinary result with the rejection passed through alongside the error.
 */
module CommandResults {
  import Wrappers
  type Option<T> = Wrappers.Option<T>

  datatype Either<L, R> = Left(left: L) | Right(right: R)

  datatype CommandResult<T, E> =
    | Ok(payload: T)
    | Rejected(message: string)
    | Err(error: E)
  {
    predicate IsOk()
    {
      Ok?
    }

    predicate IsRejected()
    {
      Rejected?
    }

    predicate IsErr()
    {
      Err?
    }

    /** Accepted, and the payload satisfies `f`. */
    predicate IsOkAnd(f: T -> bool)
    {
      match this
      case Ok(x) => f(x)
      case _ => false
    }

    /** Failed, and the error satisfies `f`. */
    predicate IsErrAnd(f: E -> bool)
    {
      match this
      case Err(e) => f(e)
      case _ => false
    }

    function AsOk(): Option<T>
    {
      match this
      case Ok(x) => Wrappers.Some(x)
      case _ => Wrappers.None
    }

    function AsRejected(): Option<string>
    {
      match this
      case Rejected(msg) => Wrappers.Some(msg)
      case _ => Wrappers.None
    }

    function AsErr(): Option<E>
    {
      match this
      case Err(e) => Wrappers.Some(e)
      case _ => Wrappers.None
    }

    /** Transforms an accepted payload; a rejection or an error passes through. */
    function Map<U>(op: T -> U): CommandResult<U, E>
    {
      match this
      case Ok(t) => Ok(op(t))
      case Rejected(msg) => Rejected(msg)
      case Err(e) => Err(e)
    }

    /** Applies `f` to an accepted payload, or gives the default. */
    function MapOr<U>(default: U, f: T -> U): U
    {
      match this
      case Ok(t) => f(t)
      case _ => default
    }

    /** Applies `f` to an accepted payload, or `default` to the rejection (left) or error (right). */
    function MapOrElse<U>(default: Either<string, E> -> U, f: T -> U): U
    {
      match this
      case Ok(t) => f(t)
      case Rejected(msg) => default(Left(msg))
      case Err(e) => default(Right(e))
    }

    /** Transforms an error; an accepted payload or a rejection passes through. */
    function MapErr<F>(op: E -> F): CommandResult<T, F>
    {
      match this
      case Ok(t) => Ok(t)
      case Rejected(msg) => Rejected(msg)
      case Err(e) => Err(op(e))
    }

    /** The accepted payload; anything else is a panic. */
    function Unwrap(): T
      requires IsOk()
    {
      payload
    }

    function UnwrapOr(default: T): T
    {
      match this
      case Ok(t) => t
      case _ => default
    }

    function UnwrapOrElse(op: Either<string, E> -> T): T
    {
      match this
      case Ok(t) => t
      case Rejected(msg) => op(Left(msg))
      case Err(e) => op(Right(e))
    }
  }

  /** Any error converts into a failed command. */
  function FromError<T, E>(error: E): (r: CommandResult<T, E>)
    ensures r.IsErr() && !r.IsOk() && !r.IsRejected() && r.AsErr() == Wrappers.Some(error)
  {
    Err(error)
  }

  // ---------------------------------------------------------------------------
  // Laws

  /** Exactly one of accepted, rejected and failed holds, and its accessor alone is `Some`. */
  lemma ExactlyOneVariant<T, E>(r: CommandResult<T, E>)
    ensures r.IsOk() || r.IsRejected() || r.IsErr()
    ensures !(r.IsOk() && r.IsRejected()) && !(r.IsOk() && r.IsErr()) && !(r.IsRejected() && r.IsErr())
    ensures r.AsOk().Some? <==> r.IsOk()
    ensures r.AsRejected().Some? <==> r.IsRejected()
    ensures r.AsErr().Some? <==> r.IsErr()
  {
  }

  /** The accessors lose nothing: the result can be rebuilt from them. */
  lemma AccessorsRebuild<T, E>(r: CommandResult<T, E>)
    ensures r == if r.AsOk().Some? then Ok(r.AsOk().value)
                 else if r.AsRejected().Some? then Rejected(r.AsRejected().value)
                 else Err(r.AsErr().value)
  {
  }

  /** The predicate forms are false off their own variant, and `true` on it recovers the plain test. */
  lemma PredicatesOnTheirVariant<T, E>(r: CommandResult<T, E>, f: T -> bool, g: E -> bool)
    ensures !r.IsOk() ==> !r.IsOkAnd(f)
    ensures !r.IsErr() ==> !r.IsErrAnd(g)
    ensures r.IsOkAnd(_ => true) == r.IsOk() && r.IsErrAnd(_ => true) == r.IsErr()
    ensures r.IsOkAnd(f) == r.MapOr(false, f)
  {
  }

  /** Mapping with the identity changes nothing, and two maps are one map of the composition. */
  lemma MapLaws<T, E, U, W>(r: CommandResult<T, E>, f: T -> U, g: U -> W)
    ensures r.Map(x => x) == r
    ensures r.Map(f).Map(g) == r.Map(x => g(f(x)))
    ensures r.Map(f).IsOk() == r.IsOk() && r.Map(f).AsRejected() == r.AsRejected() && r.Map(f).AsErr() == r.AsErr()
  {
  }

  lemma MapErrLaws<T, E, F, G>(r: CommandResult<T, E>, f: E -> F, g: F -> G)
    ensures r.MapErr(e => e) == r
    ensures r.MapErr(f).MapErr(g) == r.MapErr(e => g(f(e)))
    ensures r.MapErr(f).IsErr() == r.IsErr() && r.MapErr(f).AsOk() == r.AsOk() && r.MapErr(f).AsRejected() == r.AsRejected()
  {
  }

  /** Mapping the payload and mapping the error do not interfere. */
  lemma MapCommutesWithMapErr<T, E, U, F>(r: CommandResult<T, E>, f: T -> U, g: E -> F)
    ensures r.Map(f).MapErr(g) == r.MapErr(g).Map(f)
  {
  }

  /** The eliminators agree: each is a map followed by an unwrap. */
  lemma EliminatorsAgree<T, E, U>(r: CommandResult<T, E>, default: U, fallback: Either<string, E> -> U, f: T -> U, d: T)
    ensures r.MapOr(default, f) == r.Map(f).UnwrapOr(default)
    ensures r.MapOrElse(fallback, f) == r.Map(f).UnwrapOrElse(fallback)
    ensures r.UnwrapOr(d) == r.UnwrapOrElse(_ => d)
    ensures r.IsOk() ==> r.UnwrapOr(d) == r.Unwrap() && r.AsOk() == Wrappers.Some(r.Unwrap())
    ensures !r.IsOk() ==> r.UnwrapOr(d) == d
  {
  }

  /** The fallback sees a rejection as `Left` with its message and an error as `Right`. */
  lemma FallbackSeesCause<T, E>(r: CommandResult<T, E>, op: Either<string, E> -> T)
    ensures r.IsRejected() ==> r.UnwrapOrElse(op) == op(Left(r.message))
    ensures r.IsErr() ==> r.UnwrapOrElse(op) == op(Right(r.error))
  {
  }
}
