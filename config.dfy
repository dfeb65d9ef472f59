/** The token store of src/config.ts: one module-level binding, read from
    the environment at load time, that `setNotionToken` replaces and
    `getNotionToken` reads. The environment value is a constructor argument. */
module Config {
  import opened Wire

  class Config {
    /** The current token; `None` when the environment had no `NOTION_TOKEN`. */
    var notionToken: Option<string>

    /** The message of both errors the store throws. */
    static const NotSet := "Notion token is not set"

    constructor(environmentToken: Option<string>)
      ensures notionToken == environmentToken
    {
      notionToken := environmentToken;
    }

    /** `setNotionToken(token)`: an empty token throws and leaves the stored
        one as it was; any other token replaces it. */
    method SetNotionToken(token: string) returns (r: Result<()>)
      modifies this
      ensures r.Failure? <==> token == ""
      ensures r.Failure? ==> r.error == Thrown(NotSet)
      ensures token == "" ==> notionToken == old(notionToken)
      ensures token != "" ==> notionToken == Some(token)
    {
      if token == "" {
        return Failure(Thrown(NotSet));
      }
      notionToken := Some(token);
      return Success(());
    }

    /** `getNotionToken()`: throws when no token is set or the token is
        empty, and otherwise returns it. */
    function GetNotionToken(): (r: Result<string>)
      reads this
      ensures r.Success? <==> notionToken.Some? && notionToken.value != ""
      ensures r.Failure? ==> r.error == Thrown(NotSet)
      ensures r.Success? ==> Some(r.value) == notionToken && r.value != ""
    {
      match notionToken
      case Some(token) => if token == "" then Failure(Thrown(NotSet)) else Success(token)
      case None => Failure(Thrown(NotSet))
    }
  }

  /** Whatever the environment held, a successful `setNotionToken` is what
      the next `getNotionToken` returns, and a rejected one leaves
      `getNotionToken` answering as before. */
  method SetThenGet(config: Config, token: string) returns (r: Result<string>)
    modifies config
    ensures token != "" ==> r == Success(token)
    ensures token == "" ==> r == old(config.GetNotionToken())
  {
    var _ := config.SetNotionToken(token);
    r := config.GetNotionToken();
  }
}
