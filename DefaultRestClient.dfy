/** The client that runs a REST method: it builds the method's URI, takes its
    complete response type, makes one exchange on the HTTP transport and
    returns the response body. The transport stands for Spring's
    RestTemplate; all it shows of itself is the log of the exchanges it was
    asked to make. */
module DefaultRestClients {
  import opened RestModel
  import opened AbstractRestMethods
  import opened RestClientUtils

  /** The arguments of one RestTemplate.exchange call. */
  datatype ExchangeRequest = ExchangeRequest(
    url: string,
    httpMethod: HttpMethod,
    requestEntity: Option<string>,   // the request body; null when there is none
    responseType: JavaType)

  /** What exchange returns: a status and a decoded body, which may be null. */
  datatype ResponseEntity = ResponseEntity(statusCode: int, body: Option<string>)

  /** The HTTP transport. What the remote server answers is the function
      `server`, fixed when the transport is made; every exchange is logged. */
  class RestTemplate {
    const server: ExchangeRequest -> Result<ResponseEntity>
    var exchanges: seq<ExchangeRequest>

    constructor (server: ExchangeRequest -> Result<ResponseEntity>)
      ensures this.server == server && exchanges == []
    {
      this.server := server;
      exchanges := [];
    }

    /** Sends one request and returns the server's answer or its failure. */
    method Exchange(url: string, httpMethod: HttpMethod, requestEntity: Option<string>, responseType: JavaType)
      returns (r: Result<ResponseEntity>)
      modifies this
      ensures exchanges == old(exchanges) + [ExchangeRequest(url, httpMethod, requestEntity, responseType)]
      ensures r == server(ExchangeRequest(url, httpMethod, requestEntity, responseType))
    {
      var request := ExchangeRequest(url, httpMethod, requestEntity, responseType);
      exchanges := exchanges + [request];
      r := server(request);
    }
  }

  class DefaultRestClient {
    const restTemplate: RestTemplate

    constructor (restTemplate: RestTemplate)
      ensures this.restTemplate == restTemplate
    {
      this.restTemplate := restTemplate;
    }

    /** `new DefaultRestClient(restTemplate)`: a null transport throws
        NullPointerException at once and no client is made. */
    static method New(restTemplate: RestTemplate?) returns (client: DefaultRestClient?, r: Outcome)
      ensures restTemplate == null ==> client == null && r == Fail(NullPointer)
      ensures restTemplate != null ==> r == Pass && client != null && fresh(client)
                                       && client.restTemplate == restTemplate
    {
      if restTemplate == null {
        return null, Fail(NullPointer);
      }
      client := new DefaultRestClient(restTemplate);
      r := Pass;
    }

    /** Runs `restMethod`: resolves its URI from its current parameters (with
        `encode` as the URI library's encoding), takes its complete response
        type, makes one exchange with that URI, the configured verb and no
        request body, and returns the body as it came. A failure to resolve
        the URI is thrown before the transport is touched; a transport
        failure is passed through. */
    method Invoke(restMethod: AbstractRestMethod?, encode: string -> string) returns (r: Result<Option<string>>)
      modifies restTemplate
      ensures var url := ParseAndParametrizeRestMethodUri(restMethod, encode);
        url.Err? ==> r == Err(url.error) && restTemplate.exchanges == old(restTemplate.exchanges)
      ensures var url := ParseAndParametrizeRestMethodUri(restMethod, encode);
        url.Ok? ==>
          && restMethod != null && restMethod.cls.configuration.Some?
          && var request := ExchangeRequest(url.value, restMethod.cls.configuration.value.httpMethod, None,
                                            GetCompleteResponseType(restMethod).value);
          && restTemplate.exchanges == old(restTemplate.exchanges) + [request]
          && r == match restTemplate.server(request)
                  case Ok(response) => Ok(response.body)
                  case Err(e) => Err(e)
    {
      var url := ParseAndParametrizeRestMethodUri(restMethod, encode);
      if url.Err? {
        return Err(url.error);
      }
      var completeResponseType := GetCompleteResponseType(restMethod).value;
      var httpMethod := restMethod.cls.configuration.value.httpMethod;
      var response := restTemplate.Exchange(url.value, httpMethod, None, completeResponseType);
      if response.Err? {
        return Err(response.error);
      }
      r := Ok(response.value.body);
    }

    method GetRestTemplate() returns (t: RestTemplate)
      ensures t == restTemplate
    {
      t := restTemplate;
    }
  }
}
