/** Values shared by the rest-client model: nullable values, failures standing
    for the exceptions the client throws, HTTP verbs, the
    RestMethodConfiguration annotation as a record, the declared result type
    of a REST method class, and Spring's hasText test. */
module RestModel {

  /** A Java reference that may be null. */
  datatype Option<+T> = None | Some(value: T)

  /** The exceptions the core raises. */
  datatype Failure =
    | NullPointer                      // NullPointerException
    | IllegalArgument(message: string) // IllegalArgumentException with its message
    | UnsupportedOperation(message: string)
    | MissingUriVariable(name: string) // the URI template library's IllegalArgumentException for an unbound variable
    | Transport(message: string)       // whatever the HTTP transport throws, passed through

  /** A value, or the exception raised instead of returning it. */
  datatype Result<+T> = Ok(value: T) | Err(error: Failure)

  /** The outcome of a Java `void` method: it returns normally or throws. */
  datatype Outcome = Pass | Fail(error: Failure)

  /** Spring's HttpMethod enumeration. */
  datatype HttpMethod = GET | HEAD | POST | PUT | PATCH | DELETE | OPTIONS | TRACE

  /** The RestMethodConfiguration annotation: a required relative service URL
      template and an HTTP verb that defaults to GET. */
  datatype RestMethodConfiguration = RestMethodConfiguration(serviceUrl: string, httpMethod: HttpMethod := GET)

  /** The result type a REST method class declares as the type argument of its
      immediate supertype, as Spring's ResolvableType sees it: a plain class
      (a DTO, a Map, an array, Void), a Collection of some element type, or
      nothing that resolves to a class (no type argument, an unbound type
      variable). A Collection's `element` is the declared type's first type
      argument, as ResolvableType.resolveGeneric() reads it; for a class such
      as `FooList extends ArrayList<Foo>` that has no type argument of its own
      it is Unresolved, not Foo. */
  datatype JavaType =
    | Plain(name: string)
    | Collection(container: string, element: JavaType)
    | Unresolved

  /** What reflection tells about a concrete REST method class. */
  datatype MethodClass = MethodClass(
    canonicalName: Option<string>,   // null for anonymous and local classes
    declaredResultType: JavaType,
    configuration: Option<RestMethodConfiguration>)

  /** java.lang.Character.isWhitespace: the Unicode space, line and paragraph
      separators other than the non-breaking spaces U+00A0, U+2007 and U+202F,
      and the controls U+0009-U+000D and U+001C-U+001F. */
  predicate IsJavaWhitespace(c: char)
  {
    var n := c as int;
    n == 0x20 || 0x09 <= n <= 0x0D || 0x1C <= n <= 0x1F
    || n == 0x1680 || 0x2000 <= n <= 0x2006 || 0x2008 <= n <= 0x200A
    || n == 0x2028 || n == 0x2029 || n == 0x205F || n == 0x3000
  }

  /** Spring's StringUtils.containsText: some character is not whitespace. */
  predicate ContainsText(s: string)
  {
    exists i :: 0 <= i < |s| && !IsJavaWhitespace(s[i])
  }

  /** Spring's StringUtils.hasText: not null, not empty, not only whitespace. */
  predicate HasText(s: Option<string>)
  {
    s.Some? && ContainsText(s.value)
  }
}
