/**
 * The prompt under the desktop and on the section pages
 * (navigation-prompt.tsx): the keyword routing of a typed question, the
 * section buttons, the submit guard, and whether the quick-question buttons
 * are shown. `router.push` is modelled by returning the route it is given.
 */
module NavigationPrompt {
  import opened Wrappers
  import opened Text

  /** The keys of `pageRoutes`, which are also the quick buttons' labels. */
  datatype RouteKey = Me | Projects | Skills | Fun | Contact

  function KeyName(key: RouteKey): string {
    match key
    case Me => "Me"
    case Projects => "Projects"
    case Skills => "Skills"
    case Fun => "Fun"
    case Contact => "Contact"
  }

  /** `pageRoutes[key]`. */
  function PageRoute(key: RouteKey): string {
    match key
    case Me => "/me"
    case Projects => "/projects"
    case Skills => "/skills"
    case Fun => "/fun"
    case Contact => "/contact"
  }

  /** The quick buttons, in order; a sixth "More" button leads to `Me`. */
  const NAV_CONFIG: seq<RouteKey> := [Me, Projects, Skills, Fun, Contact]
  const MORE_BUTTON_KEY: RouteKey := Me

  /** Each route is '/' followed by its key in lower case, so no two keys share a route. */
  lemma PageRoutesSpec(k: RouteKey, k': RouteKey)
    ensures PageRoute(k) == "/" + Lower(KeyName(k))
    ensures PageRoute(k) == PageRoute(k') ==> k == k'
  {
    var name := KeyName(k);
    assert Lower(name)[0] == LowerChar(name[0]);
  }

  /** `query.trim().toLowerCase()`. */
  function Normalize(query: string): string {
    Lower(Trim(query))
  }

  /** The keyword rules, tried in order on a normalised query; the first that matches wins. */
  function MatchKey(normalized: string): RouteKey {
    if Contains(normalized, "project") || Contains(normalized, "portfolio") then Projects
    else if Contains(normalized, "skill") then Skills
    else if Contains(normalized, "contact") || Contains(normalized, "email") then Contact
    else if Contains(normalized, "fun") || Contains(normalized, "hobby") then Fun
    else Me
  }

  /** `handleQueryNavigation`: the route pushed, or nothing for a blank query. */
  function RouteQuery(query: string): Option<string> {
    var normalized := Normalize(query);
    if normalized == "" then None else Some(PageRoute(MatchKey(normalized)))
  }

  /** The submit button is disabled while the input is blank. */
  predicate SubmitDisabled(input: string) {
    Trim(input) == ""
  }

  /** The form's submit handler: it routes only a non-blank input. */
  function Submit(input: string): Option<string> {
    if Trim(input) != "" then RouteQuery(input) else None
  }

  /** A rule's place in the chain; the fallback is last. */
  function Priority(key: RouteKey): (p: nat)
    ensures p <= 4
  {
    match key
    case Projects => 0
    case Skills => 1
    case Contact => 2
    case Fun => 3
    case Me => 4
  }

  /**
   * A blank query routes nowhere; any other routes to exactly one of the
   * five section pages, and submitting routes exactly when the button is
   * enabled, to the same page.
   */
  lemma RouteQuerySpec(query: string)
    ensures RouteQuery(query) == None <==> Trim(query) == ""
    ensures RouteQuery(query).Some? ==> exists k :: RouteQuery(query) == Some(PageRoute(k))
    ensures Submit(query).Some? <==> !SubmitDisabled(query)
    ensures Submit(query) == RouteQuery(query)
  {
    if Trim(query) != "" {
      assert |Normalize(query)| == |Trim(query)|;
      var k := MatchKey(Normalize(query));
      assert RouteQuery(query) == Some(PageRoute(k));
    }
  }

  /**
   * Each route is taken exactly when its own keywords appear and no
   * earlier rule's do; /me is the fallback when none appear.
   */
  lemma MatchKeySpec(n: string)
    ensures MatchKey(n) == Projects <==> Contains(n, "project") || Contains(n, "portfolio")
    ensures MatchKey(n) == Skills <==> Priority(MatchKey(n)) > 0 && Contains(n, "skill")
    ensures MatchKey(n) == Contact <==> Priority(MatchKey(n)) > 1 && (Contains(n, "contact") || Contains(n, "email"))
    ensures MatchKey(n) == Fun <==> Priority(MatchKey(n)) > 2 && (Contains(n, "fun") || Contains(n, "hobby"))
    ensures MatchKey(n) == Me <==>
              !Contains(n, "project") && !Contains(n, "portfolio") && !Contains(n, "skill")
              && !Contains(n, "contact") && !Contains(n, "email") && !Contains(n, "fun") && !Contains(n, "hobby")
  {
  }

  /** Adding text to a question can only move it to the same or an earlier rule. */
  lemma MoreTextEarlierRule(n: string, t: string)
    ensures Priority(MatchKey(n + t)) <= Priority(MatchKey(n))
  {
    var words := ["project", "portfolio", "skill", "contact", "email", "fun", "hobby"];
    forall w | w in words && Contains(n, w)
      ensures Contains(n + t, w)
    {
      ContainsAppend(n, t, w);
    }
  }

  /** Routing ignores letter case: two queries equal up to case route alike. */
  lemma RouteIgnoresCase(a: string, b: string)
    requires Lower(a) == Lower(b)
    ensures RouteQuery(a) == RouteQuery(b)
  {
    TrimLower(a);
    TrimLower(b);
  }

  /** `showQuick`: the parent's flag when it passes one, else the prompt's own. */
  function ShowQuick(showQuickProp: Option<bool>, internalShowQuick: bool): bool {
    showQuickProp.GetOr(internalShowQuick)
  }

  /**
   * The toggle button: the parent's handler when it passes one (the result's
   * second part says it is called), else a flip of the prompt's own flag.
   */
  function ToggleQuick(hasToggleHandler: bool, internalShowQuick: bool): (bool, bool) {
    if hasToggleHandler then (internalShowQuick, true) else (!internalShowQuick, false)
  }

  /**
   * An uncontrolled prompt starts with the buttons shown and the toggle
   * flips them; a parent's handler is called instead and leaves the own
   * flag alone; a parent's flag decides what is shown whatever the own flag.
   */
  lemma QuickToggleSpec(showQuickProp: Option<bool>, hasToggleHandler: bool, internalShowQuick: bool)
    ensures ShowQuick(None, true)
    ensures !hasToggleHandler ==>
              ShowQuick(None, ToggleQuick(hasToggleHandler, internalShowQuick).0) == !ShowQuick(None, internalShowQuick)
    ensures hasToggleHandler ==> ToggleQuick(hasToggleHandler, internalShowQuick) == (internalShowQuick, true)
    ensures showQuickProp.Some? ==>
              ShowQuick(showQuickProp, ToggleQuick(hasToggleHandler, internalShowQuick).0) == showQuickProp.value
  {
  }

  /** The five quick buttons (`handleSectionNavigation`) lead to five different pages, and "More" to /me. */
  lemma SectionButtonsSpec()
    ensures forall i, j :: 0 <= i < j < |NAV_CONFIG| ==> PageRoute(NAV_CONFIG[i]) != PageRoute(NAV_CONFIG[j])
    ensures PageRoute(MORE_BUTTON_KEY) == "/me"
  {
  }
}
