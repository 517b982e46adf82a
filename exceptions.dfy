/**
 * The crawler's error taxonomy (src/core/exceptions.py) and the handful of
 * built-in Python exception classes the crawl layer raises or meets.
 * An exception value records its concrete class, its message (what `str(e)`
 * gives) and the exception it was raised `from`, if any.
 */
module Exceptions {
  import opened Wrappers

  /** Concrete exception classes. `ExceptionClass` is a bare `Exception`. */
  datatype ErrorClass =
    | ExceptionClass
    | CrawlerErrorClass
    | FetchErrorClass
    | ParseErrorClass
    | ValueErrorClass
    | TypeErrorClass
    | AttributeErrorClass
    | KeyErrorClass
    | RuntimeErrorClass

  /** The direct base class; `Exception` is the root of every class modelled here. */
  function Base(c: ErrorClass): Option<ErrorClass> {
    match c
    case ExceptionClass => None
    case FetchErrorClass => Some(CrawlerErrorClass)
    case ParseErrorClass => Some(CrawlerErrorClass)
    case _ => Some(ExceptionClass)
  }

  /** Distance from the root, used as the termination measure of IsSubclass. */
  function Depth(c: ErrorClass): nat {
    match c
    case ExceptionClass => 0
    case FetchErrorClass => 2
    case ParseErrorClass => 2
    case _ => 1
  }

  /** Python's `issubclass(a, b)` over the modelled hierarchy. */
  predicate IsSubclass(a: ErrorClass, b: ErrorClass)
    decreases Depth(a)
  {
    a == b || (Base(a).Some? && IsSubclass(Base(a).value, b))
  }

  datatype Exc = Exc(cls: ErrorClass, message: string, cause: Option<Exc>)

  /** Python's `isinstance(e, c)`. */
  predicate IsInstance(e: Exc, c: ErrorClass) {
    IsSubclass(e.cls, c)
  }

  /** What `except CrawlerError` catches. */
  predicate IsCrawlerError(e: Exc) {
    IsInstance(e, CrawlerErrorClass)
  }

  /** Python's `str(e)` for an exception raised with a single message argument. */
  function Str(e: Exc): string {
    e.message
  }

  /** The result of a Python call that either returns a value or raises. */
  datatype Result<+T> = Ok(value: T) | Err(error: Exc)

  /** `FetchError` is a `CrawlerError`, and so is `ParseError`. */
  lemma CrawlerErrorSubclasses()
    ensures IsSubclass(FetchErrorClass, CrawlerErrorClass)
    ensures IsSubclass(ParseErrorClass, CrawlerErrorClass)
    ensures forall c :: IsSubclass(c, ExceptionClass)
  {
  }

  /** `FetchError` and `ParseError` are distinct and neither derives from the other. */
  lemma FetchAndParseUnrelated()
    ensures FetchErrorClass != ParseErrorClass
    ensures !IsSubclass(FetchErrorClass, ParseErrorClass)
    ensures !IsSubclass(ParseErrorClass, FetchErrorClass)
  {
  }

  /**
   * `CrawlerError` is the root of the crawler errors: exactly CrawlerError,
   * FetchError and ParseError derive from it, so `except CrawlerError` lets
   * ValueError, TypeError and the rest through.
   */
  lemma CrawlerErrorIsRoot(c: ErrorClass)
    ensures IsSubclass(c, CrawlerErrorClass) <==>
            c == CrawlerErrorClass || c == FetchErrorClass || c == ParseErrorClass
  {
  }

  /** `issubclass` is a partial order on the modelled classes. */
  lemma {:induction false} SubclassTransitive(a: ErrorClass, b: ErrorClass, c: ErrorClass)
    requires IsSubclass(a, b) && IsSubclass(b, c)
    ensures IsSubclass(a, c)
    decreases Depth(a)
  {
    if a != b {
      SubclassTransitive(Base(a).value, b, c);
    }
  }

  lemma SubclassAntisymmetric(a: ErrorClass, b: ErrorClass)
    requires IsSubclass(a, b) && IsSubclass(b, a)
    ensures a == b
  {
  }
}
