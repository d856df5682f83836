/** The request the bot posts to the knowledge-base query endpoint of the
    language service (`queryCognitiveLanguageService`). The three values the
    source reads from the process environment are passed in. */
module KnowledgeQuery {

  import opened QueryString

  /** `QnAEndpointHostName`, `QnAKnowledgebaseId` and `QnAAuthKey`. */
  datatype Environment = Environment(hostName: string, knowledgeBaseId: string, authKey: string)

  /** The JSON body of the query. */
  datatype QueryBody = QueryBody(
    top: nat,
    question: string,
    includeUnstructuredSources: bool,
    confidenceScoreThreshold: real)

  datatype Request = Request(url: string, headers: map<string, string>, body: QueryBody)

  const EndpointPath := "/language/:query-knowledgebases"
  const ApiVersion := "2021-10-01"
  const DeploymentName := "production"
  const SubscriptionKeyHeader := "Ocp-Apim-Subscription-Key"

  /** The endpoint followed by the project, API version and deployment as
      query parameters. The project name is inserted as it is, not
      percent-encoded. */
  function RequestUrl(env: Environment): string
  {
    env.hostName + EndpointPath
      + "?projectName=" + env.knowledgeBaseId
      + "&api-version=" + ApiVersion
      + "&deploymentName=" + DeploymentName
  }

  /** The whole request for one question: at most three answers, each
      answer at least 0.5 confident, unstructured sources included, and the
      question passed on unchanged; authenticated by the subscription key. */
  function KnowledgeRequest(env: Environment, question: string): (r: Request)
    ensures r.url == RequestUrl(env)
    ensures r.headers.Keys == {SubscriptionKeyHeader, "Content-Type"}
    ensures r.headers[SubscriptionKeyHeader] == env.authKey
    ensures r.headers["Content-Type"] == "application/json"
    ensures r.body.question == question
    ensures r.body.top == 3 && r.body.includeUnstructuredSources
    ensures r.body.confidenceScoreThreshold == 0.5
  {
    Request(
      RequestUrl(env),
      map[SubscriptionKeyHeader := env.authKey, "Content-Type" := "application/json"],
      QueryBody(3, question, true, 0.5))
  }

  /** The query part of the URL, after the '?'. */
  function Query(env: Environment): string
  {
    "projectName=" + env.knowledgeBaseId
      + "&api-version=" + ApiVersion
      + "&deploymentName=" + DeploymentName
  }

  lemma UrlSplitsAtQuestionMark(env: Environment)
    requires '?' !in env.hostName
    ensures RequestUrl(env) == (env.hostName + EndpointPath) + ['?'] + Query(env)
    ensures '?' !in env.hostName + EndpointPath
  {
  }

  /** `c !in s` for a string literal, from its characters. This wrapper
      exists only so that the literal is unfolded in a small proof of its
      own rather than inside `QueryFields`. */
  lemma LiteralLacks(s: string, c: char)
    requires forall k :: 0 <= k < |s| ==> s[k] != c
    ensures c !in s
  {
  }

  lemma QueryFields(env: Environment)
    requires '&' !in env.knowledgeBaseId
    ensures SplitOn(Query(env), '&') ==
      ["projectName=" + env.knowledgeBaseId, "api-version=" + ApiVersion, "deploymentName=" + DeploymentName]
  {
    var pField := "projectName=" + env.knowledgeBaseId;
    var aField := "api-version=" + ApiVersion;
    var dField := "deploymentName=" + DeploymentName;
    assert Query(env) == pField + ['&'] + aField + ['&'] + dField;
    LiteralLacks("projectName=", '&');
    LiteralLacks(aField, '&');
    LiteralLacks(dField, '&');
    SplitOnThree(pField, aField, dField, '&');
  }

  /** `QueryString.FieldOf` for a name spelled out as a literal. This
      wrapper exists only so that the literal is unfolded, character by
      character, in a small proof of its own. */
  lemma LiteralField(name: string, value: string)
    requires forall k :: 0 <= k < |name| ==> name[k] != '='
    ensures Field(name + "=" + value) == (name, value)
  {
    FieldOf(name, value);
  }

  lemma ProjectField(env: Environment)
    ensures Field("projectName=" + env.knowledgeBaseId) == ("projectName", env.knowledgeBaseId)
  {
    assert "projectName=" + env.knowledgeBaseId == "projectName" + "=" + env.knowledgeBaseId;
    LiteralField("projectName", env.knowledgeBaseId);
  }

  lemma ApiVersionField()
    ensures Field("api-version=" + ApiVersion) == ("api-version", ApiVersion)
  {
    assert "api-version=" + ApiVersion == "api-version" + "=" + ApiVersion;
    LiteralField("api-version", ApiVersion);
  }

  lemma DeploymentField()
    ensures Field("deploymentName=" + DeploymentName) == ("deploymentName", DeploymentName)
  {
    assert "deploymentName=" + DeploymentName == "deploymentName" + "=" + DeploymentName;
    LiteralField("deploymentName", DeploymentName);
  }

  /** Splitting the URL gives back the endpoint and exactly the three
      parameters, in order, with the values the bot meant, as long as the
      host holds no '?' and the project name no '&'. */
  lemma RequestUrlRoundTrip(env: Environment)
    requires '?' !in env.hostName
    requires '&' !in env.knowledgeBaseId
    ensures ParseUrl(RequestUrl(env)) ==
      (env.hostName + EndpointPath,
       [("projectName", env.knowledgeBaseId), ("api-version", ApiVersion), ("deploymentName", DeploymentName)])
  {
    UrlSplitsAtQuestionMark(env);
    ParseUrlAt(env.hostName + EndpointPath, Query(env));
    QueryFields(env);
    FieldsOfThree("projectName=" + env.knowledgeBaseId, "api-version=" + ApiVersion, "deploymentName=" + DeploymentName);
    ProjectField(env);
    ApiVersionField();
    DeploymentField();
  }
}
