# rest-client: a Dafny model of the request-shaping core

This project models the core of a small Spring REST client. A caller
describes a remote operation as a REST method object: a subclass of
`AbstractRestMethod` whose generic type argument is the expected result, whose
`RestMethodConfiguration` annotation gives the HTTP verb (GET by default) and a
relative service URL template with `{name}` placeholders, and whose parameter
map is filled through `addParameter`. `DefaultRestClient.invoke` turns such an
object into one call of Spring's `RestTemplate.exchange`: it expands the URL
template against the parameters, takes the complete declared result type, sends
the request with no body, and returns the response body unchanged.

The model has five modules, one per piece of the core:

- `RestModel` (RestModel.dfy): shared values. Java `null` is `Option`, and an
  exception is the `Err`/`Fail` side of `Result`/`Outcome`, carrying a
  `Failure`. Reflection is replaced by a `MethodClass` record. It holds the
  canonical name, which may be null. It holds the declared result type
  (`JavaType`: `Plain`, `Collection` of an element type, or `Unresolved`). It
  holds the annotation as `Option<RestMethodConfiguration>`, with `httpMethod`
  defaulting to `GET`. Spring's `StringUtils.hasText` is `HasText`, with Java's
  `Character.isWhitespace` written out.
- `UriTemplates` (UriTemplates.dfy): the `{name}` placeholders of Spring's
  `UriTemplate`, as the service URL uses them. `Parse` reads a template into
  literal characters and placeholders. `Expand` substitutes parameters left
  to right and fails on the first unbound placeholder.
- `AbstractRestMethods` (AbstractRestMethod.dfy): the class
  `AbstractRestMethod` with its `parameterMap` field, its constructor, the
  three `addParameter` overloads (`AddParameter`, `AddNumberParameter`,
  `AddDateParameter`) and `AssertParameters` with its loop. `Valid()` is the
  invariant that every stored name and value has text.
- `RestClientUtils` (RestClientUtils.dfy): `FindGenericTypeDefinition`,
  `FindResponseDtoType`, `GetCompleteResponseType` and
  `ParseAndParametrizeRestMethodUri`. The last one works through
  `ParametrizeUri`, its counterpart over the class and a parameter map.
- `DefaultRestClients` (DefaultRestClient.dfy): `RestTemplate` stands for the
  transport. What the server answers is a function fixed at construction, and
  every exchange is appended to a log, `exchanges`. `DefaultRestClient` has
  the null-checking construction (`New`), `Invoke` and `GetRestTemplate`.

The main property is stated in `Invoke`'s postcondition. If the URI does not
resolve (null method, missing annotation, blank service URL, unbound
placeholder), the error is returned and the transport log is unchanged:
`exchange` is never called.
Otherwise exactly one exchange is logged. It carries the expanded service URL
as is, the annotation's verb, no request body, and the complete declared
response type. The result is the server's body, or its failure.

Where the source does not compile, the model follows the evident intent:

- `RestClientUtils.java:100` calls `configuration.serviceUri()`. The
  annotation element is `serviceUrl()` (`RestMethodConfiguration.java:30`).
  The model reads `serviceUrl`.
- `RestClientUtils.java:103` calls `restMethod.getParameterMap()`. Neither
  `RestMethod` nor `AbstractRestMethod` declares it. The map is the private
  field at `AbstractRestMethod.java:21`. The model reads the field
  `parameterMap`.
- `DefaultRestClient.java:28` calls `method.getHttpMethod()`, which is not on
  the `RestMethod` interface. The model uses the annotation's `method()`,
  written `httpMethod` because `method` is a Dafny keyword.

Notes on the code's behaviour:

- `invoke` passes the complete declared type to the transport, collection
  wrapper included. `FindResponseDtoType` is part of the code, but `invoke`
  does not call it.
- No base URL is prepended. The transport receives the expanded relative
  service URL.
- The `Number` and `LocalDate` overloads always throw
  `UnsupportedOperationException`. They do not store the value.
- The parameter store is a `HashMap`, so it is unordered.
- A class without the annotation fails with `IllegalArgumentException`.
  A result type that does not resolve makes `findResponseDtoType` throw
  `NullPointerException` (`RestClientUtils.java:38-39`). `invoke` does not
  call that method: `getCompleteResponseType` hands the unresolved type to
  the transport, so `invoke` does not fail on it before the transport call.
  Neither error has its own exception type.
- A service URL without text fails with `IllegalArgumentException` when the
  `UriTemplate` is built (`RestClientUtils.java:102`).

## Model

| member | source | states |
|---|---|---|
| `AbstractRestMethods.AbstractRestMethod.constructor` | restclient/src/main/java/com/peter/spring/utilities/restclient/AbstractRestMethod.java:23-25 | a new method object has an empty parameter map, satisfies the text invariant and has the given class |
| `AbstractRestMethods.AbstractRestMethod.AddParameter` | restclient/src/main/java/com/peter/spring/utilities/restclient/AbstractRestMethod.java:27-31 | succeeds exactly when name and value both have text. On success the map becomes the old map with name set to value (last write wins, other entries kept). On failure it throws IllegalArgumentException("Empty parameter") and the map is unchanged. Keys are never removed, and every stored name and value keeps having text |
| `AbstractRestMethods.AbstractRestMethod.AddNumberParameter` | restclient/src/main/java/com/peter/spring/utilities/restclient/AbstractRestMethod.java:33-36 | always throws UnsupportedOperationException("Implementation missing"); with no modifies clause it cannot change the map |
| `AbstractRestMethods.AbstractRestMethod.AddDateParameter` | restclient/src/main/java/com/peter/spring/utilities/restclient/AbstractRestMethod.java:38-41 | always throws UnsupportedOperationException("Implementation missing"); with no modifies clause it cannot change the map |
| `AbstractRestMethods.AbstractRestMethod.AssertParameters` | restclient/src/main/java/com/peter/spring/utilities/restclient/AbstractRestMethod.java:52-66 | passes exactly when the array is present, non-empty and every element has text. A null array fails with "No parameters specified", an empty one with "Empty parameter array specified", any other failure with "Empty parameter" |
| `UriTemplates.ParseRoundTrip` | restclient/src/main/java/com/peter/spring/utilities/restclient/RestClientUtils.java:102 | writing a parsed template back gives the template text: parsing loses and invents nothing |
| `UriTemplates.PlaceholdersHaveText` | restclient/src/main/java/com/peter/spring/utilities/restclient/RestClientUtils.java:102 | a template with a placeholder always has text, so the blank-template failure never hides a placeholder |
| `UriTemplates.ExpandOutcome` | restclient/src/main/java/com/peter/spring/utilities/restclient/RestClientUtils.java:102-103 | expansion succeeds exactly when every placeholder has a parameter; a failure names a placeholder of the template that is not bound |
| `UriTemplates.ExpandReadsOnlyPlaceholders` | restclient/src/main/java/com/peter/spring/utilities/restclient/RestClientUtils.java:103 | two parameter maps that agree on the template's placeholders give the same expansion, so extra parameters never matter |
| `UriTemplates.ExpandWithoutPlaceholders` | restclient/src/main/java/com/peter/spring/utilities/restclient/RestClientUtils.java:102-104 | a template without placeholders expands to itself, whatever the parameters |
| `UriTemplates.ExpandSelfBinding` | restclient/src/main/java/com/peter/spring/utilities/restclient/RestClientUtils.java:102-103 | binding each placeholder to its own `{name}` text gives the template back, so expansion changes the placeholders and nothing else |
| `UriTemplates.ExpandSeparatesValues` | restclient/src/main/java/com/peter/spring/utilities/restclient/RestClientUtils.java:103 | if two bindings differ only in the value of one placeholder the template uses, the two expansions differ |
| `UriTemplates.ExpandOnePlaceholder` | restclient/src/main/java/com/peter/spring/utilities/restclient/RestClientUtils.java:102-103 | a prefix without `{` followed by one placeholder (such as `/things/{id}`) expands to the prefix followed by the bound value (`/things/42`), and fails naming the placeholder when it is unbound |
| `RestClientUtils.ParametrizeUri` | restclient/src/main/java/com/peter/spring/utilities/restclient/RestClientUtils.java:94-104 | a class without the annotation fails with IllegalArgumentException naming the class and the annotation, whatever the parameters. A service URL without text fails with IllegalArgumentException("'uriTemplate' must not be null"). Otherwise the result succeeds exactly when every placeholder of the service URL is bound, and a failure names an unbound placeholder |
| `RestClientUtils.ParseAndParametrizeRestMethodUri` | restclient/src/main/java/com/peter/spring/utilities/restclient/RestClientUtils.java:92-93 | a null method object fails with NullPointerException; otherwise the URI is that of the object's class and its current parameter map |
| `RestClientUtils.FindGenericTypeDefinition` | restclient/src/main/java/com/peter/spring/utilities/restclient/RestClientUtils.java:74-80 | the type argument read from the method's class is its declared result type; the function reads no mutable state, so parameters cannot affect it |
| `RestClientUtils.FindResponseDtoType` | restclient/src/main/java/com/peter/spring/utilities/restclient/RestClientUtils.java:36-45 | the DTO type is the complete response type unwrapped by exactly one Collection level: a Collection of X yields X's class (a Collection of Collections yields the inner container), any other resolved type is its own DTO type. It fails exactly for a null object (IllegalArgumentException from the AOP lookup) or a declared type that does not resolve (NullPointerException) |
| `RestClientUtils.GetCompleteResponseType` | restclient/src/main/java/com/peter/spring/utilities/restclient/RestClientUtils.java:56-63 | fails exactly for a null object; otherwise it is the declared result type, collection wrapper included |
| `RestClientUtils.TypesDependOnClassOnly` | restclient/src/main/java/com/peter/spring/utilities/restclient/RestClientUtils.java:74-80 | two method objects of the same class have the same DTO type and complete response type, whatever their parameters |
| `RestClientUtils.UriOfFixedTemplate` | restclient/src/main/java/com/peter/spring/utilities/restclient/RestClientUtils.java:99-104 | a configured service URL without placeholders gives that URL, encoded, whatever the parameters |
| `RestClientUtils.UriIgnoresUnusedParameters` | restclient/src/main/java/com/peter/spring/utilities/restclient/RestClientUtils.java:102-104 | parameters the service URL does not name never change the URI |
| `RestClientUtils.UriFollowsParameterChange` | restclient/src/main/java/com/peter/spring/utilities/restclient/RestClientUtils.java:103 | with an injective encoding, changing the value of a placeholder changes the URI. Because `Invoke` recomputes the URI, a second call after the change uses the new URI |
| `DefaultRestClients.RestTemplate.Exchange` | restclient/src/main/java/com/peter/spring/utilities/restclient/DefaultRestClient.java:28-29 | the transport logs exactly the request it was given and returns the server's answer to it |
| `DefaultRestClients.DefaultRestClient.New` | restclient/src/main/java/com/peter/spring/utilities/restclient/DefaultRestClient.java:18-20 | a null transport fails with NullPointerException and no client; otherwise a fresh client holding that transport |
| `DefaultRestClients.DefaultRestClient.constructor` | restclient/src/main/java/com/peter/spring/utilities/restclient/DefaultRestClient.java:16-20 | the client holds the given transport, and the field is immutable |
| `DefaultRestClients.DefaultRestClient.Invoke` | restclient/src/main/java/com/peter/spring/utilities/restclient/DefaultRestClient.java:22-31 | if URI resolution fails, its error is returned and no exchange is logged. Otherwise exactly one exchange is logged, with the expanded URL unchanged, the configured verb, no request body and the complete response type. The result is the response body as it came, or the transport's failure |
| `DefaultRestClients.DefaultRestClient.GetRestTemplate` | restclient/src/main/java/com/peter/spring/utilities/restclient/DefaultRestClient.java:33-35 | returns the transport the client was built with |

## Left out

- Reflection and AOP are left out: `AopUtils.getTargetClass`,
  `ResolvableType` and `getSuperType().getGeneric()`. Each REST method object
  carries its `MethodClass`. Its declared result type is the first type
  argument of the immediate supertype, already resolved. Type arguments of
  non-collection types, such as `Map<K, V>`, are not modelled; they reach the
  transport unchanged.
- Spring's `UriTemplate` is replaced by `UriTemplates`. A placeholder is `{`,
  then the shortest non-empty run of characters other than `/` that is
  followed by `}`, then that `}`; so `{{a}` is the placeholder `{a`, and a
  brace that does not open a placeholder is literal. The `{name:regex}` form,
  where only the part before `:` is the name, is not modelled: such a
  placeholder is looked up under its full text. The model also looks for
  placeholders over the whole template text. Spring first splits the
  template into path, query and fragment, splits the query at `&` and `=`,
  and only then looks for placeholders inside each piece. So a `{…}` that
  contains `?` or `#`, or (in the query) `&` or `=`, is a placeholder in
  the model but not in Spring: `/a{b?c}` needs a parameter `b?c` here, while
  Spring sees the path `/a{b` and the query `c}` and needs none.
- ParametrizeUri: the URI is modelled as `encode` applied to the whole
  expanded text. Spring instead splits the template into URI components and
  encodes each parameter value for the component it lands in, so the result
  depends on the template and not only on the expanded text. For example
  `/a/{x}` with `x` = `b?c` gives `/a/b%3Fc`, while the fixed URL `/a/b?c`
  gives `/a/b?c`; the model gives `encode("/a/b?c")` for both. `encode` (a
  parameter of `ParametrizeUri`, `ParseAndParametrizeRestMethodUri` and
  `Invoke`) is otherwise unconstrained. `java.net.URI` construction is left
  out.
- UriFollowsParameterChange: assumes that `encode` is injective, which the
  whole-text model above needs to conclude that different values give
  different URIs.
- An unbound placeholder is `MissingUriVariable(name)`. Spring raises it as
  an `IllegalArgumentException`; its message is not modelled.
- `GetCompleteResponseType`: for a null method object Java builds the type
  reference and fails only when the transport asks for its type. The model
  fails at once. `Invoke` never reaches this case, because URI resolution has
  already failed for a null object.
- `RestTemplate.exchange` (network I/O) is reduced to a call log and a
  server-answer function. HTTP status handling, message conversion and
  timeouts belong to that function. Because `server` is fixed when the
  transport is made, the modelled transport is deterministic: it answers the
  same request the same way every time, which a real server need not do.
- The decoded response body is an opaque `Option<string>`. The unchecked cast
  to the caller's result type is not modelled.
- `IsJavaWhitespace` follows current Java. U+180E is not whitespace there,
  though Java 8 treated it as whitespace.
- RestClientConfiguration.java is Spring bean wiring and is not part of this
  model. It builds the `RestTemplate` without the configured
  `serverBaseUrl` or timeouts (line 28), so the base URL is never applied.
- RestClientConfigurationProperties.java holds null-checked getters and
  setters for properties. It is not part of this model.
- RestMethod.java and RestClient.java are interfaces without logic. Their
  signatures give the shapes of `AbstractRestMethod` and `Invoke`.
- Concurrency is not modelled: the parameter map is a plain field with no
  synchronisation.
