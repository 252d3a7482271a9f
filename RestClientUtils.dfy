/** The static helpers the client uses: the declared result type of a REST
    method, the DTO type inside it, and the request URI built from the
    method's configured service URL template and its parameters. */
module RestClientUtils {
  import opened RestModel
  import opened UriTemplates
  import opened AbstractRestMethods

  /** The message of the IllegalArgumentException for a class without the
      annotation; a class without a canonical name prints as "null". */
  function MissingConfigurationMessage(canonicalName: Option<string>): string
  {
    (if canonicalName.Some? then canonicalName.value else "null")
      + " does not declare RestMethodConfiguration annotation"
  }

  /** The message of the IllegalArgumentException Spring's AopUtils throws
      for a null object. */
  const NullCandidateMessage := "Candidate object must not be null"

  /** ResolvableType.resolve(): the class a type stands for, or null. */
  function ResolveClass(t: JavaType): Option<string>
  {
    match t
    case Plain(name) => Some(name)
    case Collection(container, _) => Some(container)
    case Unresolved => None
  }

  /** The first type argument of the immediate supertype of the method's
      class. It has no reads clause, so it cannot depend on parameters. */
  function FindGenericTypeDefinition(m: AbstractRestMethod): (t: JavaType)
    ensures t == m.cls.declaredResultType
  {
    m.cls.declaredResultType
  }

  /** The DTO class of a method's result: the complete response type
      unwrapped by exactly one Collection level. The element class of a
      declared Collection (null when the element does not resolve; a List of
      Lists yields List), else the declared class itself. A declared type
      that does not resolve at all makes the Collection test throw
      NullPointerException. */
  function FindResponseDtoType(m: AbstractRestMethod?): (r: Result<Option<string>>)
    ensures m == null ==> r == Err(IllegalArgument(NullCandidateMessage))
    ensures r.Err? <==> m == null || GetCompleteResponseType(m).value.Unresolved?
    ensures m != null && GetCompleteResponseType(m).value.Collection? ==>
      r == Ok(ResolveClass(GetCompleteResponseType(m).value.element))
    ensures m != null && GetCompleteResponseType(m).value.Plain? ==>
      r == Ok(Some(GetCompleteResponseType(m).value.name))
    ensures m != null && GetCompleteResponseType(m).value.Unresolved? ==> r == Err(NullPointer)
  {
    if m == null then Err(IllegalArgument(NullCandidateMessage))
    else
      var generic := FindGenericTypeDefinition(m);
      match generic
      case Unresolved => Err(NullPointer)
      case Collection(_, element) => Ok(ResolveClass(element))
      case Plain(name) => Ok(Some(name))
  }

  /** The complete declared result type, collection wrapper included, as the
      type reference handed to the transport. */
  function GetCompleteResponseType(m: AbstractRestMethod?): (r: Result<JavaType>)
    ensures r.Err? <==> m == null
    ensures m == null ==> r == Err(IllegalArgument(NullCandidateMessage))
    ensures m != null ==> r == Ok(m.cls.declaredResultType)
  {
    if m == null then Err(IllegalArgument(NullCandidateMessage))
    else Ok(FindGenericTypeDefinition(m))
  }

  /** The message of the IllegalArgumentException the URI library throws for
      a template without text. */
  const BlankTemplateMessage := "'uriTemplate' must not be null"

  /** The URI of a method of class `cls` with parameters `params`: the
      configured service URL template expanded against the parameters, then
      encoded by `encode` (the URI library's percent-encoding, a parameter
      here). A class without the annotation fails before any expansion, and
      so does a service URL without text. */
  function ParametrizeUri(cls: MethodClass, params: map<string, string>, encode: string -> string): (r: Result<string>)
    ensures cls.configuration.None? ==> r == Err(IllegalArgument(MissingConfigurationMessage(cls.canonicalName)))
    ensures cls.configuration.Some? && !ContainsText(cls.configuration.value.serviceUrl) ==>
      r == Err(IllegalArgument(BlankTemplateMessage))
    ensures cls.configuration.Some? && ContainsText(cls.configuration.value.serviceUrl) ==>
      (r.Ok? <==> Placeholders(cls.configuration.value.serviceUrl) <= params.Keys)
    ensures cls.configuration.Some? && ContainsText(cls.configuration.value.serviceUrl) && r.Err? ==>
      r.error.MissingUriVariable? && r.error.name in Placeholders(cls.configuration.value.serviceUrl)
      && r.error.name !in params
  {
    match cls.configuration
    case None => Err(IllegalArgument(MissingConfigurationMessage(cls.canonicalName)))
    case Some(configuration) =>
      var uri := configuration.serviceUrl;
      if !ContainsText(uri) then Err(IllegalArgument(BlankTemplateMessage))
      else
        ExpandOutcome(uri, params);
        var expanded := Expand(uri, params);
        if expanded.Err? then Err(expanded.error) else Ok(encode(expanded.value))
  }

  /** The URI of method object `m`, from its class and its current
      parameters; a null object throws NullPointerException. */
  function ParseAndParametrizeRestMethodUri(m: AbstractRestMethod?, encode: string -> string): (r: Result<string>)
    reads m
    ensures m == null ==> r == Err(NullPointer)
    ensures m != null ==> r == ParametrizeUri(m.cls, m.parameterMap, encode)
  {
    if m == null then Err(NullPointer) else ParametrizeUri(m.cls, m.parameterMap, encode)
  }

  /** Both type results depend on the method's class alone. */
  lemma TypesDependOnClassOnly(m1: AbstractRestMethod, m2: AbstractRestMethod)
    requires m1.cls == m2.cls
    ensures FindResponseDtoType(m1) == FindResponseDtoType(m2)
    ensures GetCompleteResponseType(m1) == GetCompleteResponseType(m2)
  {
  }

  /** A template without placeholders gives the encoded template, whatever
      the parameters. */
  lemma UriOfFixedTemplate(cls: MethodClass, params: map<string, string>, encode: string -> string)
    requires cls.configuration.Some? && ContainsText(cls.configuration.value.serviceUrl)
    requires Placeholders(cls.configuration.value.serviceUrl) == {}
    ensures ParametrizeUri(cls, params, encode) == Ok(encode(cls.configuration.value.serviceUrl))
  {
    ExpandWithoutPlaceholders(cls.configuration.value.serviceUrl, params);
  }

  /** Parameters the template does not name never change the URI. */
  lemma UriIgnoresUnusedParameters(cls: MethodClass, p1: map<string, string>, p2: map<string, string>, encode: string -> string)
    requires cls.configuration.Some?
    requires forall n :: n in Placeholders(cls.configuration.value.serviceUrl) ==>
      (n in p1 <==> n in p2) && (n in p1 ==> p1[n] == p2[n])
    ensures ParametrizeUri(cls, p1, encode) == ParametrizeUri(cls, p2, encode)
  {
    ExpandReadsOnlyPlaceholders(cls.configuration.value.serviceUrl, p1, p2);
  }

  /** With an injective encoding, giving a placeholder a different value
      gives a different URI. */
  lemma UriFollowsParameterChange(cls: MethodClass, p1: map<string, string>, p2: map<string, string>,
                                  name: string, encode: string -> string)
    requires forall a, b :: encode(a) == encode(b) ==> a == b
    requires cls.configuration.Some?
    requires Placeholders(cls.configuration.value.serviceUrl) <= p1.Keys
    requires Placeholders(cls.configuration.value.serviceUrl) <= p2.Keys
    requires name in Placeholders(cls.configuration.value.serviceUrl) && p1[name] != p2[name]
    requires forall n :: n in Placeholders(cls.configuration.value.serviceUrl) && n != name ==> p1[n] == p2[n]
    ensures ParametrizeUri(cls, p1, encode).Ok? && ParametrizeUri(cls, p2, encode).Ok?
    ensures ParametrizeUri(cls, p1, encode) != ParametrizeUri(cls, p2, encode)
  {
    PlaceholdersHaveText(cls.configuration.value.serviceUrl);
    ExpandSeparatesValues(cls.configuration.value.serviceUrl, p1, p2, name);
  }
}
