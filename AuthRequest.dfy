/**
 * The authorization request that the sign-in dialog's constructor assembles:
 * the fixed query parameters of an OAuth 2.0 implicit grant (section 4.2.1 of
 * RFC 6749) and the space-separated scope list.
 */
module AuthRequest {
  import opened Wrappers
  import opened AuthScopes

  const ParamClientId := "client_id"
  const ParamRedirectUri := "redirect_uri"
  const ParamResponseType := "response_type"
  const ParamScope := "scope"
  const ParamPopup := "popup"
  const ParamRegister := "register"

  datatype RequestMode = LOGIN | REGISTER

  /** What the constructor throws: deleteCharAt(-1) on an empty StringBuilder. */
  datatype ConstructionError = StringIndexOutOfBounds

  /** The wire names of a scope list, in list order. */
  function Names(scopes: seq<AuthScope>): (ns: seq<string>)
    ensures |ns| == |scopes|
  {
    seq(|scopes|, i requires 0 <= i < |scopes| => ScopeName(scopes[i]))
  }

  /** Words separated by single spaces, with no leading or trailing space. */
  function Joined(ns: seq<string>): string
    requires |ns| > 0
  {
    if |ns| == 1 then ns[0] else Joined(ns[..|ns| - 1]) + " " + ns[|ns| - 1]
  }

  /** What the StringBuilder holds after the append loop: every word followed by a space. */
  function Terminated(ns: seq<string>): string
  {
    if ns == [] then "" else Terminated(ns[..|ns| - 1]) + ns[|ns| - 1] + " "
  }

  lemma {:induction false} TerminatedIsJoinedPlusSpace(ns: seq<string>)
    requires |ns| > 0
    ensures Terminated(ns) == Joined(ns) + " "
  {
    if |ns| > 1 {
      var init := ns[..|ns| - 1];
      TerminatedIsJoinedPlusSpace(init);
      assert init[..|init| - 1] == ns[..|ns| - 2];
    } else {
      assert ns[..0] == [];
    }
  }

  /** The scope parameter, or the exception an empty scope list raises. */
  function ScopeParameter(scopes: seq<AuthScope>): (r: Result<string, ConstructionError>)
    ensures r.Failure? <==> scopes == []
  {
    if scopes == [] then Failure(StringIndexOutOfBounds) else Success(Joined(Names(scopes)))
  }

  /** The query parameters of the authorization URL, keyed like the Bundle that holds them. */
  function AuthorizationParameters(clientId: string, redirectUrl: string, scopes: seq<AuthScope>, mode: RequestMode)
    : (r: Result<map<string, string>, ConstructionError>)
    ensures r.Failure? <==> scopes == []
    ensures r.Success? ==>
      && r.value.Keys == {ParamClientId, ParamRedirectUri, ParamResponseType, ParamPopup, ParamScope}
                         + (if mode == REGISTER then {ParamRegister} else {})
      && r.value[ParamClientId] == clientId
      && r.value[ParamRedirectUri] == redirectUrl
      && r.value[ParamResponseType] == "token"
      && r.value[ParamPopup] == "true"
      && r.value[ParamScope] == ScopeParameter(scopes).value
      && (mode == REGISTER ==> r.value[ParamRegister] == "true")
  {
    match ScopeParameter(scopes)
    case Failure(e) => Failure(e)
    case Success(scope) =>
      var fixed := map[ParamClientId := clientId, ParamRedirectUri := redirectUrl,
                       ParamResponseType := "token", ParamPopup := "true", ParamScope := scope];
      Success(if mode == REGISTER then fixed[ParamRegister := "true"] else fixed)
  }

  /**
   * The parameter-filling part of the dialog's constructor: fills the Bundle,
   * appends each scope name and a space to a StringBuilder, then deletes the
   * last character, which throws when the list was empty.
   */
  method BuildParameters(clientId: string, redirectUrl: string, scopes: seq<AuthScope>, mode: RequestMode)
    returns (r: Result<map<string, string>, ConstructionError>)
    ensures r == AuthorizationParameters(clientId, redirectUrl, scopes, mode)
  {
    var parameters: map<string, string> := map[];
    parameters := parameters[ParamClientId := clientId];
    parameters := parameters[ParamRedirectUri := redirectUrl];
    parameters := parameters[ParamResponseType := "token"];
    parameters := parameters[ParamPopup := "true"];

    var sb: string := "";
    var i := 0;
    while i < |scopes|
      invariant 0 <= i <= |scopes|
      invariant sb == Terminated(Names(scopes[..i]))
    {
      assert Names(scopes[..i + 1])[..i] == Names(scopes[..i]);
      sb := sb + ScopeName(scopes[i]);
      sb := sb + " ";
      i := i + 1;
    }
    assert scopes[..i] == scopes;
    if |sb| == 0 {
      return Failure(StringIndexOutOfBounds);
    }
    if scopes != [] {
      TerminatedIsJoinedPlusSpace(Names(scopes));
    }
    sb := sb[..|sb| - 1];
    parameters := parameters[ParamScope := sb];

    if mode == REGISTER {
      parameters := parameters[ParamRegister := "true"];
    }
    r := Success(parameters);
  }

  // Reading the scope parameter back.

  /** Position of the first space in s. */
  function FirstSpace(s: string): (i: nat)
    requires ' ' in s
    ensures i < |s| && s[i] == ' ' && ' ' !in s[..i]
  {
    if s[0] == ' ' then 0 else 1 + FirstSpace(s[1..])
  }

  /** s cut at every space. */
  function Split(s: string): (words: seq<string>)
    ensures |words| > 0
    decreases |s|
  {
    if ' ' !in s then [s] else var i := FirstSpace(s); [s[..i]] + Split(s[i + 1..])
  }

  lemma {:induction false} FirstSpaceIs(s: string, i: nat)
    requires i < |s| && s[i] == ' ' && ' ' !in s[..i]
    ensures FirstSpace(s) == i
  {
    if i > 0 {
      assert s[0] == s[..i][0];
      assert s[1..][..i - 1] == s[..i][1..];
      FirstSpaceIs(s[1..], i - 1);
    }
  }

  lemma {:induction false} SplitAppend(a: string, w: string)
    requires ' ' !in w
    ensures Split(a + " " + w) == Split(a) + [w]
    decreases |a|
  {
    var s := a + " " + w;
    if ' ' !in a {
      assert s[..|a|] == a;
      FirstSpaceIs(s, |a|);
      assert s[|a| + 1..] == w;
    } else {
      var i := FirstSpace(a);
      assert s[..i] == a[..i];
      FirstSpaceIs(s, i);
      assert s[i + 1..] == a[i + 1..] + " " + w;
      SplitAppend(a[i + 1..], w);
    }
  }

  lemma {:induction false} SplitJoined(ns: seq<string>)
    requires |ns| > 0
    requires forall k :: 0 <= k < |ns| ==> ' ' !in ns[k]
    ensures Split(Joined(ns)) == ns
  {
    if |ns| > 1 {
      var init := ns[..|ns| - 1];
      SplitJoined(init);
      SplitAppend(Joined(init), ns[|ns| - 1]);
    }
  }

  /** Parses the words of a scope parameter back into scope constants. */
  function ParseNames(ns: seq<string>): (r: Option<seq<AuthScope>>)
    ensures r.Some? ==> |r.value| == |ns|
  {
    if ns == [] then Some([])
    else match (ScopeOf(ns[0]), ParseNames(ns[1..]))
      case (Some(s), Some(rest)) => Some([s] + rest)
      case _ => None
  }

  lemma {:induction false} ParseNamesOfNames(scopes: seq<AuthScope>)
    ensures ParseNames(Names(scopes)) == Some(scopes)
  {
    if scopes != [] {
      assert Names(scopes)[0] == ScopeName(scopes[0]);
      ScopeOfName(scopes[0]);
      ParseNamesOfNames(scopes[1..]);
      assert Names(scopes)[1..] == Names(scopes[1..]);
      assert [scopes[0]] + scopes[1..] == scopes;
    }
  }

  /** The scope parameter splits back into exactly the requested list, in order. */
  lemma ScopeParameterRoundTrip(scopes: seq<AuthScope>)
    requires scopes != []
    ensures ScopeParameter(scopes).Success?
    ensures ParseNames(Split(ScopeParameter(scopes).value)) == Some(scopes)
  {
    SplitJoined(Names(scopes));
    ParseNamesOfNames(scopes);
  }
}
