/**
 * net.tokensmith...router.builder.AskBuilder: collects the seventeen fields of
 * an Ask through chained setters and builds it. Nothing has a default: a
 * field never set is null in the Ask.
 */
module AskBuilding {
  import opened Common
  import opened Entities
  import opened Messages

  /** The Ask in which every field is null. */
  const EMPTY_ASK := Ask(Null, Null, Null, Null, Null, Null, Null, Null, Null, Null, Null, Null, Null, Null, Null, Null, Null)

  class AskBuilder {
    var matcher: Nullable<Option<Matcher>>
    var possibleContentTypes: Nullable<seq<MimeType>>
    var possibleAccepts: Nullable<seq<MimeType>>
    var httpMethod: Nullable<Method>
    var scheme: Nullable<string>
    var authority: Nullable<string>
    var port: Nullable<int>
    var pathWithParams: Nullable<string>
    var contentType: Nullable<MimeType>
    var accept: Nullable<MimeType>
    var headers: Nullable<map<string, string>>
    var cookies: Nullable<map<string, Cookie>>
    var queryParams: Nullable<map<string, seq<string>>>
    var formData: Nullable<map<string, seq<string>>>
    var body: Nullable<Option<seq<Byte>>>
    var csrfChallenge: Nullable<Option<string>>
    var ipAddress: Nullable<string>

    /** The Ask the builder holds: its fields in the Ask's positional order. */
    function Current(): Ask
      reads this
    {
      Ask(matcher, possibleContentTypes, possibleAccepts, httpMethod, scheme, authority, port, pathWithParams, contentType, accept, headers, cookies, queryParams, formData, body, csrfChallenge, ipAddress)
    }

    /** Every field null. */
    constructor ()
      ensures Current() == EMPTY_ASK
    {
      matcher, possibleContentTypes, possibleAccepts, httpMethod := Null, Null, Null, Null;
      scheme, authority, port, pathWithParams := Null, Null, Null, Null;
      contentType, accept, headers, cookies := Null, Null, Null, Null;
      queryParams, formData, body, csrfChallenge := Null, Null, Null, Null;
      ipAddress := Null;
    }

    method Matcher(matcher: Nullable<Option<Matcher>>) returns (b: AskBuilder)
      modifies this
      ensures b == this && Current() == old(Current()).(matcher := matcher)
    {
      this.matcher := matcher;
      b := this;
    }

    method PossibleContentTypes(possibleContentTypes: Nullable<seq<MimeType>>) returns (b: AskBuilder)
      modifies this
      ensures b == this && Current() == old(Current()).(possibleContentTypes := possibleContentTypes)
    {
      this.possibleContentTypes := possibleContentTypes;
      b := this;
    }

    method PossibleAccepts(possibleAccepts: Nullable<seq<MimeType>>) returns (b: AskBuilder)
      modifies this
      ensures b == this && Current() == old(Current()).(possibleAccepts := possibleAccepts)
    {
      this.possibleAccepts := possibleAccepts;
      b := this;
    }

    method HttpMethod(httpMethod: Nullable<Method>) returns (b: AskBuilder)
      modifies this
      ensures b == this && Current() == old(Current()).(httpMethod := httpMethod)
    {
      this.httpMethod := httpMethod;
      b := this;
    }

    method Scheme(scheme: Nullable<string>) returns (b: AskBuilder)
      modifies this
      ensures b == this && Current() == old(Current()).(scheme := scheme)
    {
      this.scheme := scheme;
      b := this;
    }

    method Authority(authority: Nullable<string>) returns (b: AskBuilder)
      modifies this
      ensures b == this && Current() == old(Current()).(authority := authority)
    {
      this.authority := authority;
      b := this;
    }

    method Port(port: Nullable<int>) returns (b: AskBuilder)
      modifies this
      ensures b == this && Current() == old(Current()).(port := port)
    {
      this.port := port;
      b := this;
    }

    method PathWithParams(pathWithParams: Nullable<string>) returns (b: AskBuilder)
      modifies this
      ensures b == this && Current() == old(Current()).(pathWithParams := pathWithParams)
    {
      this.pathWithParams := pathWithParams;
      b := this;
    }

    method ContentType(contentType: Nullable<MimeType>) returns (b: AskBuilder)
      modifies this
      ensures b == this && Current() == old(Current()).(contentType := contentType)
    {
      this.contentType := contentType;
      b := this;
    }

    method Accept(accept: Nullable<MimeType>) returns (b: AskBuilder)
      modifies this
      ensures b == this && Current() == old(Current()).(accept := accept)
    {
      this.accept := accept;
      b := this;
    }

    method Headers(headers: Nullable<map<string, string>>) returns (b: AskBuilder)
      modifies this
      ensures b == this && Current() == old(Current()).(headers := headers)
    {
      this.headers := headers;
      b := this;
    }

    method Cookies(cookies: Nullable<map<string, Cookie>>) returns (b: AskBuilder)
      modifies this
      ensures b == this && Current() == old(Current()).(cookies := cookies)
    {
      this.cookies := cookies;
      b := this;
    }

    method QueryParams(queryParams: Nullable<map<string, seq<string>>>) returns (b: AskBuilder)
      modifies this
      ensures b == this && Current() == old(Current()).(queryParams := queryParams)
    {
      this.queryParams := queryParams;
      b := this;
    }

    method FormData(formData: Nullable<map<string, seq<string>>>) returns (b: AskBuilder)
      modifies this
      ensures b == this && Current() == old(Current()).(formData := formData)
    {
      this.formData := formData;
      b := this;
    }

    method Body(body: Nullable<Option<seq<Byte>>>) returns (b: AskBuilder)
      modifies this
      ensures b == this && Current() == old(Current()).(body := body)
    {
      this.body := body;
      b := this;
    }

    method CsrfChallenge(csrfChallenge: Nullable<Option<string>>) returns (b: AskBuilder)
      modifies this
      ensures b == this && Current() == old(Current()).(csrfChallenge := csrfChallenge)
    {
      this.csrfChallenge := csrfChallenge;
      b := this;
    }

    method IpAddress(ipAddress: Nullable<string>) returns (b: AskBuilder)
      modifies this
      ensures b == this && Current() == old(Current()).(ipAddress := ipAddress)
    {
      this.ipAddress := ipAddress;
      b := this;
    }

    /** The Ask of the fields as they stand, each passed in its own position. */
    method Build() returns (ask: Ask)
      ensures ask == Current()
      ensures ask.httpMethod == httpMethod && ask.pathWithParams == pathWithParams && ask.port == port
      ensures ask.scheme == scheme && ask.authority == authority && ask.ipAddress == ipAddress
    {
      ask := Ask(matcher, possibleContentTypes, possibleAccepts, httpMethod, scheme, authority, port, pathWithParams, contentType, accept, headers, cookies, queryParams, formData, body, csrfChallenge, ipAddress);
    }
  }

  /**
   * A builder given a method and a path, then a second path, builds an Ask
   * with that method, the second path, and null everywhere else.
   */
  method LastSetterWins(m: Method, firstPath: string, secondPath: string) returns (ask: Ask)
    ensures ask == EMPTY_ASK.(httpMethod := Ref(m), pathWithParams := Ref(secondPath))
  {
    var builder := new AskBuilder();
    var b := builder.HttpMethod(Ref(m));
    b := b.PathWithParams(Ref(firstPath));
    b := b.PathWithParams(Ref(secondPath));
    ask := b.Build();
  }
}
