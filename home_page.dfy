/**
 * The landing page's prompt (app/page.tsx): the same keyword routing as the
 * navigation prompt with one extra rule ahead of the others that leads back
 * home, its own copy of the section routes, and the same submit guard.
 */
module HomePage {
  import opened Wrappers
  import opened Text
  import NavigationPrompt

  /** The page's own `pageRoutes` table. */
  function PageRoute(key: NavigationPrompt.RouteKey): string {
    match key
    case Me => "/me"
    case Projects => "/projects"
    case Skills => "/skills"
    case Fun => "/fun"
    case Contact => "/contact"
  }

  /** The quick-question buttons, in order. */
  const QUESTION_CONFIG: seq<NavigationPrompt.RouteKey> :=
    [NavigationPrompt.Me, NavigationPrompt.Projects, NavigationPrompt.Skills, NavigationPrompt.Fun, NavigationPrompt.Contact]

  /** A quick-question button's click: `handleSectionNavigation(key)` pushes that key's route. */
  function QuestionRoute(i: nat): string
    requires i < |QUESTION_CONFIG|
  {
    PageRoute(QUESTION_CONFIG[i])
  }

  /**
   * The five buttons cover every section once: each section has a button,
   * no two buttons lead to the same route, and each leads where the
   * navigation prompt would send its section.
   */
  lemma QuestionButtonsSpec()
    ensures |QUESTION_CONFIG| == 5
    ensures forall key: NavigationPrompt.RouteKey :: key in QUESTION_CONFIG
    ensures forall i, j :: 0 <= i < j < |QUESTION_CONFIG| ==> QuestionRoute(i) != QuestionRoute(j)
    ensures forall i :: 0 <= i < |QUESTION_CONFIG| ==> QuestionRoute(i) == NavigationPrompt.PageRoute(QUESTION_CONFIG[i])
  {
    forall key: NavigationPrompt.RouteKey ensures key in QUESTION_CONFIG {
      var i := match key
        case Me => 0
        case Projects => 1
        case Skills => 2
        case Fun => 3
        case Contact => 4;
      assert QUESTION_CONFIG[i] == key;
    }
  }

  /** `handleQueryNavigation` on this page: the route pushed, or nothing for a blank query. */
  function RouteQuery(query: string): Option<string> {
    RouteNormalized(NavigationPrompt.Normalize(query))
  }

  /** The page's rule chain on a trimmed, lower-cased query. */
  function RouteNormalized(n: string): Option<string> {
    if n == "" then None
    else if Contains(n, "home") then Some("/")
    else if Contains(n, "project") || Contains(n, "portfolio") then Some(PageRoute(NavigationPrompt.Projects))
    else if Contains(n, "skill") then Some(PageRoute(NavigationPrompt.Skills))
    else if Contains(n, "contact") || Contains(n, "email") then Some(PageRoute(NavigationPrompt.Contact))
    else if Contains(n, "fun") || Contains(n, "hobby") then Some(PageRoute(NavigationPrompt.Fun))
    else Some(PageRoute(NavigationPrompt.Me))
  }

  /** The form's submit handler: it routes only a non-blank input. */
  function Submit(input: string): Option<string> {
    if Trim(input) != "" then RouteQuery(input) else None
  }

  /** The page's route table is the prompt's. */
  lemma SameRouteTable(key: NavigationPrompt.RouteKey)
    ensures PageRoute(key) == NavigationPrompt.PageRoute(key)
  {
  }

  /**
   * A blank query routes nowhere; a query mentioning "home", in any case,
   * goes to '/' whatever else it mentions; any other query goes where the
   * navigation prompt sends it.
   */
  lemma RouteQuerySpec(query: string)
    ensures RouteQuery(query) == None <==> Trim(query) == ""
    ensures Trim(query) != "" && Contains(NavigationPrompt.Normalize(query), "home") ==> RouteQuery(query) == Some("/")
    ensures !Contains(NavigationPrompt.Normalize(query), "home") ==> RouteQuery(query) == NavigationPrompt.RouteQuery(query)
    ensures Submit(query) == RouteQuery(query)
  {
    var n := NavigationPrompt.Normalize(query);
    assert |n| == |Trim(query)|;
    RouteNormalizedSpec(n);
  }

  /** The page's rule chain is the prompt's keyword chain with the 'home' rule put first. */
  lemma RouteNormalizedSpec(n: string)
    ensures RouteNormalized(n) == None <==> n == ""
    ensures n != "" && Contains(n, "home") ==> RouteNormalized(n) == Some("/")
    ensures n != "" && !Contains(n, "home") ==>
              RouteNormalized(n) == Some(NavigationPrompt.PageRoute(NavigationPrompt.MatchKey(n)))
  {
    if n != "" && !Contains(n, "home") {
      SameRouteTable(NavigationPrompt.MatchKey(n));
    }
  }

  /** Only the home rule differs: no section route is '/', so the page reaches one more route than the prompt. */
  lemma HomeRouteIsNew(query: string)
    requires RouteQuery(query) == Some("/")
    ensures NavigationPrompt.RouteQuery(query) != RouteQuery(query)
    ensures forall k :: NavigationPrompt.PageRoute(k) != "/"
  {
  }

  /** Routing on this page ignores letter case too. */
  lemma RouteIgnoresCase(a: string, b: string)
    requires Lower(a) == Lower(b)
    ensures RouteQuery(a) == RouteQuery(b)
  {
    TrimLower(a);
    TrimLower(b);
    assert NavigationPrompt.Normalize(a) == NavigationPrompt.Normalize(b);
  }
}
