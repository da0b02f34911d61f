/** The permission names a shopper can grant during sign-in, and their wire strings. */
module AuthScopes {
  import opened Wrappers

  datatype AuthScope = FIRSTNAME | LASTNAME | ID | EMAIL

  /** The string each constant was constructed with (getScope). */
  function ScopeName(scope: AuthScope): (name: string)
    ensures name != [] && ' ' !in name
  {
    match scope
    case FIRSTNAME => "firstname"
    case LASTNAME => "lastname"
    case ID => "id"
    case EMAIL => "email"
  }

  /** Reverse lookup of a wire string; the inverse of ScopeName. */
  function ScopeOf(name: string): (r: Option<AuthScope>)
    ensures r.Some? ==> ScopeName(r.value) == name
  {
    if name == "firstname" then Some(FIRSTNAME)
    else if name == "lastname" then Some(LASTNAME)
    else if name == "id" then Some(ID)
    else if name == "email" then Some(EMAIL)
    else None
  }

  lemma ScopeOfName(scope: AuthScope)
    ensures ScopeOf(ScopeName(scope)) == Some(scope)
  {
  }

  /** Four constants, four distinct strings. */
  lemma ScopeNameInjective(a: AuthScope, b: AuthScope)
    ensures ScopeName(a) == ScopeName(b) <==> a == b
  {
  }
}
