/**
 * The mobile projects carousel (mobile-projects-layout.tsx): the order the
 * project cards are shown in, the index clamping behind the prev/next
 * buttons and the track scroll, the card's code, title and summary, and the
 * detail sheet's delayed content. The year is a parameter (it comes from the
 * clock); the track's pixel measurements are left out, so a scroll reports
 * the card index it rounds to.
 */
module MobileProjects {
  import opened Wrappers
  import opened Text
  import opened ProjectData

  /** Card summaries, keyed by image src. */
  const SUMMARY_BY_SRC: map<string, string> := map[
    "/Projects/LiquidPortfolio/projects.webp" := "Liquid Portfolio is my Mark One personal portfolio with motion-driven UI, AI chat integration, and responsive sections for my work and background.",
    "/Projects/CyberCodex.io/courses.webp" := "A cybersecurity learning platform with structured courses, practical labs, and an interactive experience built for real skill progression.",
    "/Projects/OldPortfolio/home.webp" := "My first portfolio built with HTML, CSS, and JavaScript. It marks the start of my development journey and growth in interface design.",
    "/Projects/HomeLab/Main.webp" := "A full home-lab infrastructure with virtualization, networking, Linux servers, and AI experiments designed like a small enterprise environment.",
    "/Projects/BGCLCV/teenCenterPc.webp" := "Designed and deployed a full enterprise-grade server room and esports network for the Boys & Girls Clubs of the Lewis-Clark Valley, transforming an empty space into a secure, high-performance infrastructure supporting daily operations and youth programs.",
    "/Projects/AuctionSoftware/mainBGCA.webp" := "My first officially deployed production application, built to track live auction bids and display real-time totals on large screens for major fundraising events across the United States.",
    "/Projects/Ubiquiti/unifi_main.webp" := "A collection of real-world UniFi networks I designed and deployed with performance, segmentation, security, and scalability across multiple environments.",
    "/Projects/ModernPortfolio/home_page.webp" := "My current portfolio website with modern UI, responsive layouts, smooth motion, and a polished production-ready frontend architecture.",
    "/Projects/Snake/snake.webp" := "A nostalgic C++ Snake project from my early programming years that reflects where my systems and game development path began.",
    "/Projects/Proxmox/mainProxmox.webp" := "A multi-node Proxmox cluster with shared storage, remote access, and controlled VM environments for infrastructure and security testing."
  ]

  const DEFAULT_SUMMARY: string := "Tap to read the full project details, stack, links, and implementation breakdown."

  /** Display titles that override the card's own, keyed by image src. */
  const TITLE_BY_SRC: map<string, string> := map[
    "/Projects/LiquidPortfolio/projects.webp" := "Liquid Portfolio",
    "/Projects/ModernPortfolio/home_page.webp" := "Modern Portfolio"
  ]

  /** The srcs shown first, in this order, as the layout lists them. */
  const MOBILE_PROJECT_ORDER: seq<string> := [
    "/Projects/BGCLCV/teenCenterPc.webp",
    "/Projects/AuctionSoftware/mainBGCA.webp",
    "/Projects/LiquidPortfolio/projects.webp",
    "/Projects/CyberCodex.io/courses.webp",
    "/Projects/ModernPortfolio/home_page.webp",
    "/Projects/HomeLab/Main.webp",
    "/Projects/Ubiquiti/unifi_main.webp",
    "/Projects/OldPortfolio/home.webp",
    "/Projects/Proxmox/mainProxmox.webp",
    "/Projects/Snake/snake.webp"
  ]

  /**
   * The order list with the two keys spelled as the project table spells
   * them, so that the server-room and CyberCodex cards are found.
   */
  const CORRECTED_ORDER: seq<string> := [
    "/projects/BGCLCV/teenCenterPc.webp",
    "/Projects/AuctionSoftware/mainBGCA.webp",
    "/Projects/LiquidPortfolio/projects.webp",
    "/Projects/Cybercodex.io/courses.webp",
    "/Projects/ModernPortfolio/home_page.webp",
    "/Projects/HomeLab/Main.webp",
    "/Projects/Ubiquiti/unifi_main.webp",
    "/Projects/OldPortfolio/home.webp",
    "/Projects/Proxmox/mainProxmox.webp",
    "/Projects/Snake/snake.webp"
  ]

  /** The summary table with the same two keys re-spelled. */
  const CORRECTED_SUMMARY_BY_SRC: map<string, string> :=
    (SUMMARY_BY_SRC - {"/Projects/BGCLCV/teenCenterPc.webp", "/Projects/CyberCodex.io/courses.webp"})
    + map[
      "/projects/BGCLCV/teenCenterPc.webp" := SUMMARY_BY_SRC["/Projects/BGCLCV/teenCenterPc.webp"],
      "/Projects/Cybercodex.io/courses.webp" := SUMMARY_BY_SRC["/Projects/CyberCodex.io/courses.webp"]
    ]

  // ---------------------------------------------------------------------
  // The ordering memo
  // ---------------------------------------------------------------------

  /** `new Map(source.map(p => [p.src, p])).get(key)`: a repeated src keeps its last card. */
  function LookupLast(source: seq<ProjectCard>, key: string): (r: Option<ProjectCard>)
    ensures r.Some? ==> r.value in source && r.value.src == key
    ensures r.None? <==> forall i :: 0 <= i < |source| ==> source[i].src != key
  {
    if source == [] then None
    else if source[|source| - 1].src == key then Some(source[|source| - 1])
    else LookupLast(source[..|source| - 1], key)
  }

  /** The cards found for the listed srcs, in the list's order, skipping srcs with no card. */
  function Prioritized(source: seq<ProjectCard>, order: seq<string>): (r: seq<ProjectCard>)
    ensures |r| <= |order|
    ensures forall i :: 0 <= i < |r| ==> r[i] in source && r[i].src in order
  {
    if order == [] then []
    else
      match LookupLast(source, order[0])
      case Some(c) => [c] + Prioritized(source, order[1..])
      case None => Prioritized(source, order[1..])
  }

  /** The cards whose src is not listed, in their original order. */
  function Remaining(source: seq<ProjectCard>, order: seq<string>): (r: seq<ProjectCard>)
    ensures |r| <= |source|
    ensures forall i :: 0 <= i < |r| ==> r[i].src !in order
    ensures forall c :: c in r <==> c in source && c.src !in order
  {
    if source == [] then []
    else
      assert source == [source[0]] + source[1..];
      (if source[0].src in order then [] else [source[0]]) + Remaining(source[1..], order)
  }

  /** The `projects` memo: the prioritized cards, then the rest. */
  function OrderProjects(source: seq<ProjectCard>, order: seq<string>): seq<ProjectCard> {
    Prioritized(source, order) + Remaining(source, order)
  }

  /** The last card in `source` with a given src. */
  predicate IsLastWithSrc(source: seq<ProjectCard>, c: ProjectCard) {
    LookupLast(source, c.src) == Some(c)
  }

  /** A card with no later card of the same src is the one the Map keeps. */
  lemma {:induction false} LookupLastUnique(source: seq<ProjectCard>, i: nat)
    requires i < |source|
    requires forall j :: i < j < |source| ==> source[j].src != source[i].src
    ensures IsLastWithSrc(source, source[i])
  {
    if i < |source| - 1 {
      LookupLastUnique(source[..|source| - 1], i);
    }
  }

  /** A card is prioritized exactly when its src is listed and it is the last card with that src. */
  lemma {:induction false} PrioritizedSpec(source: seq<ProjectCard>, order: seq<string>, c: ProjectCard)
    ensures c in Prioritized(source, order) <==> c.src in order && IsLastWithSrc(source, c)
  {
    if order != [] {
      PrioritizedSpec(source, order[1..], c);
      assert order == [order[0]] + order[1..];
      assert c.src in order <==> c.src == order[0] || c.src in order[1..];
    }
  }

  /**
   * The ordered list holds exactly the cards whose src is not listed and,
   * for a listed src, its last card; every card with a listed src comes
   * before every card without one.
   */
  lemma OrderProjectsSpec(source: seq<ProjectCard>, order: seq<string>)
    ensures forall c :: c in OrderProjects(source, order) <==>
              c in source && (c.src !in order || IsLastWithSrc(source, c))
    ensures var r := OrderProjects(source, order);
            forall i, j :: 0 <= i < j < |r| && r[j].src in order ==> r[i].src in order
  {
    forall c
      ensures c in OrderProjects(source, order) <==> c in source && (c.src !in order || IsLastWithSrc(source, c))
    {
      PrioritizedSpec(source, order, c);
    }
    var p, q := Prioritized(source, order), Remaining(source, order);
    var r := OrderProjects(source, order);
    forall i, j | 0 <= i < j < |r| && r[j].src in order
      ensures r[i].src in order
    {
      assert r[i] == p[i];
    }
  }

  /** How many cards have a listed src. */
  function CountListed(source: seq<ProjectCard>, keys: seq<string>): (n: nat)
    ensures n <= |source|
  {
    if source == [] then 0 else (if source[0].src in keys then 1 else 0) + CountListed(source[1..], keys)
  }

  lemma {:induction false} RemainingLength(source: seq<ProjectCard>, order: seq<string>)
    ensures |Remaining(source, order)| + CountListed(source, order) == |source|
  {
    if source != [] {
      RemainingLength(source[1..], order);
    }
  }

  lemma {:induction false} CountListedSplit(source: seq<ProjectCard>, k: string, rest: seq<string>)
    requires k !in rest
    ensures CountListed(source, [k] + rest) == CountListed(source, [k]) + CountListed(source, rest)
  {
    if source != [] {
      CountListedSplit(source[1..], k, rest);
    }
  }

  lemma {:induction false} CountListedMember(source: seq<ProjectCard>, keys: seq<string>, c: ProjectCard)
    requires c in source && c.src in keys
    ensures CountListed(source, keys) >= 1
  {
    if source[0] != c {
      assert c in source[1..];
      CountListedMember(source[1..], keys, c);
    }
  }

  /** With no src listed twice, at most one card per listed src that has a card is prioritized. */
  lemma {:induction false} PrioritizedLength(source: seq<ProjectCard>, order: seq<string>)
    requires forall i, j :: 0 <= i < j < |order| ==> order[i] != order[j]
    ensures |Prioritized(source, order)| <= CountListed(source, order)
  {
    if order != [] {
      var rest := order[1..];
      assert order == [order[0]] + rest;
      PrioritizedLength(source, rest);
      CountListedSplit(source, order[0], rest);
      var found := LookupLast(source, order[0]);
      if found.Some? {
        CountListedMember(source, [order[0]], found.value);
      }
    }
  }

  /** With no src listed twice, the ordered list is never longer than the source. */
  lemma OrderProjectsLength(source: seq<ProjectCard>, order: seq<string>)
    requires forall i, j :: 0 <= i < j < |order| ==> order[i] != order[j]
    ensures |OrderProjects(source, order)| <= |source|
  {
    PrioritizedLength(source, order);
    RemainingLength(source, order);
  }

  /** Which of the table's cards the two key lists name. */
  lemma AsWrittenKeys()
    ensures DATA[4].src !in MOBILE_PROJECT_ORDER && DATA[1].src !in MOBILE_PROJECT_ORDER
    ensures DATA[2].src in MOBILE_PROJECT_ORDER && DATA[7].src in MOBILE_PROJECT_ORDER
  {
  }

  lemma CorrectedKeys()
    ensures CORRECTED_ORDER[0] == DATA[4].src && DATA[1].src in CORRECTED_ORDER
    ensures DATA[2].src in CORRECTED_ORDER && DATA[7].src in CORRECTED_ORDER
  {
  }

  /** The four cards the order lists mean are each the only card with their src. */
  lemma ListedCardsAreLast()
    ensures IsLastWithSrc(DATA, DATA[1]) && IsLastWithSrc(DATA, DATA[2])
    ensures IsLastWithSrc(DATA, DATA[4]) && IsLastWithSrc(DATA, DATA[7])
  {
    CyberCodexCardIsLast();
    FirstPortfolioCardIsLast();
    ServerRoomCardIsLast();
    SnakeCardIsLast();
  }

  lemma CyberCodexCardIsLast()
    ensures IsLastWithSrc(DATA, DATA[1])
  {
    LookupLastUnique(DATA, 1);
  }

  lemma FirstPortfolioCardIsLast()
    ensures IsLastWithSrc(DATA, DATA[2])
  {
    LookupLastUnique(DATA, 2);
  }

  lemma ServerRoomCardIsLast()
    ensures IsLastWithSrc(DATA, DATA[4])
  {
    LookupLastUnique(DATA, 4);
  }

  lemma SnakeCardIsLast()
    ensures IsLastWithSrc(DATA, DATA[7])
  {
    LookupLastUnique(DATA, 7);
  }

  /**
   * As written, the server-room and CyberCodex cards are not prioritized:
   * their srcs differ in letter case from the listed keys. Only the
   * first-portfolio and snake cards are moved to the front.
   */
  lemma AsWrittenOrder()
    ensures DATA[4] !in Prioritized(DATA, MOBILE_PROJECT_ORDER) && DATA[4] in Remaining(DATA, MOBILE_PROJECT_ORDER)
    ensures DATA[1] !in Prioritized(DATA, MOBILE_PROJECT_ORDER) && DATA[1] in Remaining(DATA, MOBILE_PROJECT_ORDER)
    ensures DATA[2] in Prioritized(DATA, MOBILE_PROJECT_ORDER) && DATA[7] in Prioritized(DATA, MOBILE_PROJECT_ORDER)
  {
    AsWrittenKeys();
    ListedCardsAreLast();
    PrioritizedSpec(DATA, MOBILE_PROJECT_ORDER, DATA[4]);
    PrioritizedSpec(DATA, MOBILE_PROJECT_ORDER, DATA[1]);
    PrioritizedSpec(DATA, MOBILE_PROJECT_ORDER, DATA[2]);
    PrioritizedSpec(DATA, MOBILE_PROJECT_ORDER, DATA[7]);
  }

  /** With the keys spelled as the table spells them, the server room leads and all four listed cards are prioritized. */
  lemma CorrectedOrder()
    ensures Prioritized(DATA, CORRECTED_ORDER) != [] && Prioritized(DATA, CORRECTED_ORDER)[0] == DATA[4]
    ensures DATA[1] in Prioritized(DATA, CORRECTED_ORDER) && DATA[2] in Prioritized(DATA, CORRECTED_ORDER)
    ensures DATA[7] in Prioritized(DATA, CORRECTED_ORDER)
  {
    CorrectedKeys();
    ListedCardsAreLast();
    PrioritizedSpec(DATA, CORRECTED_ORDER, DATA[1]);
    PrioritizedSpec(DATA, CORRECTED_ORDER, DATA[2]);
    PrioritizedSpec(DATA, CORRECTED_ORDER, DATA[7]);
    TableSrcs();
    CorrectedPrioritized(DATA);
  }

  /** Listing more srcs appends their cards: the prioritized part follows the order list's order. */
  lemma {:induction false} PrioritizedAppend(source: seq<ProjectCard>, a: seq<string>, b: seq<string>)
    ensures Prioritized(source, a + b) == Prioritized(source, a) + Prioritized(source, b)
  {
    if a == [] {
      assert a + b == b;
    } else {
      assert (a + b)[0] == a[0] && (a + b)[1..] == a[1..] + b;
      PrioritizedAppend(source, a[1..], b);
    }
  }

  /** One listed src contributes the last card with it, or nothing when no card has it. */
  lemma PrioritizedSingle(source: seq<ProjectCard>, key: string)
    ensures LookupLast(source, key).Some? ==> Prioritized(source, [key]) == [LookupLast(source, key).value]
    ensures LookupLast(source, key).None? ==> Prioritized(source, [key]) == []
  {
    assert [key][1..] == [];
  }

  /** The unlisted part of a concatenation is the unlisted part of each piece, in turn: the source order is kept. */
  lemma {:induction false} RemainingAppend(s: seq<ProjectCard>, t: seq<ProjectCard>, order: seq<string>)
    ensures Remaining(s + t, order) == Remaining(s, order) + Remaining(t, order)
  {
    if s == [] {
      assert s + t == t;
    } else {
      assert (s + t)[0] == s[0] && (s + t)[1..] == s[1..] + t;
      RemainingAppend(s[1..], t, order);
    }
  }

  /** One card is kept exactly when its src is not listed. */
  lemma RemainingSingle(c: ProjectCard, order: seq<string>)
    ensures Remaining([c], order) == if c.src in order then [] else [c]
  {
    assert [c][1..] == [];
  }

  /** An order list none of whose srcs has a card prioritizes nothing. */
  lemma {:induction false} PrioritizedMissing(source: seq<ProjectCard>, order: seq<string>)
    requires forall i :: 0 <= i < |order| ==> LookupLast(source, order[i]).None?
    ensures Prioritized(source, order) == []
  {
    if order != [] {
      assert forall i :: 0 <= i < |order[1..]| ==> order[1..][i] == order[i + 1];
      PrioritizedMissing(source, order[1..]);
    }
  }

  /** A listed src with a card puts that card ahead of the rest of the list's cards. */
  lemma PrioritizedTakes(source: seq<ProjectCard>, key: string, rest: seq<string>, c: ProjectCard)
    requires LookupLast(source, key) == Some(c)
    ensures Prioritized(source, [key] + rest) == [c] + Prioritized(source, rest)
  {
    assert ([key] + rest)[0] == key && ([key] + rest)[1..] == rest;
  }

  /** A listed src with no card is skipped. */
  lemma PrioritizedSkips(source: seq<ProjectCard>, key: string, rest: seq<string>)
    requires LookupLast(source, key).None?
    ensures Prioritized(source, [key] + rest) == Prioritized(source, rest)
  {
    assert ([key] + rest)[0] == key && ([key] + rest)[1..] == rest;
  }

  /** A listed card at the front is dropped. */
  lemma RemainingDrops(c: ProjectCard, t: seq<ProjectCard>, order: seq<string>)
    requires c.src in order
    ensures Remaining([c] + t, order) == Remaining(t, order)
  {
    assert ([c] + t)[1..] == t;
  }

  /** An unlisted card at the front is kept, ahead of the rest's unlisted cards. */
  lemma RemainingKeepsFirst(c: ProjectCard, t: seq<ProjectCard>, order: seq<string>)
    requires c.src !in order
    ensures Remaining([c] + t, order) == [c] + Remaining(t, order)
  {
    assert ([c] + t)[1..] == t;
  }

  /** The table's image srcs, row by row. */
  const TABLE_SRCS: seq<string> := [
    "/syntopreview.png",
    "/Projects/Cybercodex.io/courses.webp",
    "/Projects/OldPortfolio/home.webp",
    "/fitgearpreview.png",
    "/projects/BGCLCV/teenCenterPc.webp",
    "/transcendancepreview.png",
    "/minishellpreview.png",
    "/Projects/Snake/snake.webp",
    "/oldportfoliopreview.png"
  ]

  /** A table whose rows carry the srcs of `TABLE_SRCS`, row by row. */
  predicate HasTableSrcs(d: seq<ProjectCard>) {
    |d| == |TABLE_SRCS| && forall j :: 0 <= j < |d| ==> d[j].src == TABLE_SRCS[j]
  }

  lemma TableSrcs()
    ensures HasTableSrcs(DATA)
  {
  }

  lemma TableSrcsDistinct()
    ensures forall i, j :: 0 <= i < j < |TABLE_SRCS| ==> TABLE_SRCS[i] != TABLE_SRCS[j]
  {
  }

  /** Each row's src finds that row. */
  lemma TableLookup(d: seq<ProjectCard>, i: nat)
    requires HasTableSrcs(d) && i < |d|
    ensures LookupLast(d, TABLE_SRCS[i]) == Some(d[i])
  {
    TableSrcsDistinct();
    LookupLastUnique(d, i);
  }

  /** A src that no row carries finds nothing. */
  lemma TableMissing(d: seq<ProjectCard>, key: string)
    requires HasTableSrcs(d) && key !in TABLE_SRCS
    ensures LookupLast(d, key).None?
  {
    forall j | 0 <= j < |d| ensures d[j].src != key {
      assert TABLE_SRCS[j] in TABLE_SRCS;
    }
  }

  /** As written, only places 7 and 9 of the order list carry a row's src (rows 2 and 7). */
  lemma AsWrittenOrderKeys()
    ensures forall i :: 0 <= i < 7 ==> MOBILE_PROJECT_ORDER[i] !in TABLE_SRCS
    ensures MOBILE_PROJECT_ORDER[7] == TABLE_SRCS[2] && MOBILE_PROJECT_ORDER[9] == TABLE_SRCS[7]
    ensures MOBILE_PROJECT_ORDER[8] !in TABLE_SRCS
  {
  }

  /** With the keys re-spelled, places 0, 3, 7 and 9 carry the srcs of rows 4, 1, 2 and 7. */
  lemma CorrectedOrderKeys()
    ensures CORRECTED_ORDER[0] == TABLE_SRCS[4] && CORRECTED_ORDER[3] == TABLE_SRCS[1]
    ensures CORRECTED_ORDER[7] == TABLE_SRCS[2] && CORRECTED_ORDER[9] == TABLE_SRCS[7]
    ensures forall i :: 1 <= i < 3 ==> CORRECTED_ORDER[i] !in TABLE_SRCS
    ensures forall i :: 4 <= i < 7 ==> CORRECTED_ORDER[i] !in TABLE_SRCS
    ensures CORRECTED_ORDER[8] !in TABLE_SRCS
  {
  }

  /** Which rows' srcs each order list names. */
  lemma ListedRows()
    ensures forall j :: 0 <= j < 9 ==> (TABLE_SRCS[j] in MOBILE_PROJECT_ORDER <==> j == 2 || j == 7)
    ensures forall j :: 0 <= j < 9 ==> (TABLE_SRCS[j] in CORRECTED_ORDER <==> j == 1 || j == 2 || j == 4 || j == 7)
  {
  }

  /** Ten keys of which only the eighth and the tenth find a card prioritize those two cards, in that order. */
  lemma AsWrittenPrioritizedOf(d: seq<ProjectCard>, o: seq<string>)
    requires |d| == 9 && |o| == 10
    requires LookupLast(d, o[0]).None? && LookupLast(d, o[1]).None? && LookupLast(d, o[2]).None?
    requires LookupLast(d, o[3]).None? && LookupLast(d, o[4]).None? && LookupLast(d, o[5]).None?
    requires LookupLast(d, o[6]).None? && LookupLast(d, o[8]).None?
    requires LookupLast(d, o[7]) == Some(d[2]) && LookupLast(d, o[9]) == Some(d[7])
    ensures Prioritized(d, o) == [d[2], d[7]]
  {
    KeysShape(o);
    var t9 := [o[9]] + [];
    var t8 := [o[8]] + t9;
    var t7 := [o[7]] + t8;
    var t6 := [o[6]] + t7;
    var t5 := [o[5]] + t6;
    var t4 := [o[4]] + t5;
    var t3 := [o[3]] + t4;
    var t2 := [o[2]] + t3;
    var t1 := [o[1]] + t2;
    PrioritizedTakes(d, o[9], [], d[7]);
    PrioritizedSkips(d, o[8], t9);
    PrioritizedTakes(d, o[7], t8, d[2]);
    PrioritizedSkips(d, o[6], t7);
    PrioritizedSkips(d, o[5], t6);
    PrioritizedSkips(d, o[4], t5);
    PrioritizedSkips(d, o[3], t4);
    PrioritizedSkips(d, o[2], t3);
    PrioritizedSkips(d, o[1], t2);
    PrioritizedSkips(d, o[0], t1);
    TwoCards(d[2], d[7]);
  }

  lemma TwoCards(a: ProjectCard, b: ProjectCard)
    ensures [a] + ([b] + []) == [a, b]
  {
  }

  lemma KeysShape(o: seq<string>)
    requires |o| == 10
    ensures o == [o[0]] + ([o[1]] + ([o[2]] + ([o[3]] + ([o[4]] + ([o[5]] + ([o[6]] + ([o[7]] + ([o[8]] + ([o[9]] + [])))))))))
  {
  }

  /** As written, the prioritized part is row 2 (the first portfolio), then row 7 (the snake). */
  lemma AsWrittenPrioritized(d: seq<ProjectCard>)
    requires HasTableSrcs(d)
    ensures Prioritized(d, MOBILE_PROJECT_ORDER) == [d[2], d[7]]
  {
    var o := MOBILE_PROJECT_ORDER;
    AsWrittenOrderKeys();
    forall i | 0 <= i < 7 || i == 8 ensures LookupLast(d, o[i]).None? {
      TableMissing(d, o[i]);
    }
    TableLookup(d, 2);
    TableLookup(d, 7);
    AsWrittenPrioritizedOf(d, o);
  }

  /** Ten keys of which the first, fourth, eighth and tenth find cards 4, 1, 2 and 7 prioritize those, in that order. */
  lemma CorrectedPrioritizedOf(d: seq<ProjectCard>, c: seq<string>)
    requires |d| == 9 && |c| == 10
    requires LookupLast(d, c[1]).None? && LookupLast(d, c[2]).None? && LookupLast(d, c[4]).None?
    requires LookupLast(d, c[5]).None? && LookupLast(d, c[6]).None? && LookupLast(d, c[8]).None?
    requires LookupLast(d, c[0]) == Some(d[4]) && LookupLast(d, c[3]) == Some(d[1])
    requires LookupLast(d, c[7]) == Some(d[2]) && LookupLast(d, c[9]) == Some(d[7])
    ensures Prioritized(d, c) == [d[4], d[1], d[2], d[7]]
  {
    KeysShape(c);
    var t9 := [c[9]] + [];
    var t8 := [c[8]] + t9;
    var t7 := [c[7]] + t8;
    var t6 := [c[6]] + t7;
    var t5 := [c[5]] + t6;
    var t4 := [c[4]] + t5;
    var t3 := [c[3]] + t4;
    var t2 := [c[2]] + t3;
    var t1 := [c[1]] + t2;
    PrioritizedTakes(d, c[9], [], d[7]);
    PrioritizedSkips(d, c[8], t9);
    PrioritizedTakes(d, c[7], t8, d[2]);
    PrioritizedSkips(d, c[6], t7);
    PrioritizedSkips(d, c[5], t6);
    PrioritizedSkips(d, c[4], t5);
    PrioritizedTakes(d, c[3], t4, d[1]);
    PrioritizedSkips(d, c[2], t3);
    PrioritizedSkips(d, c[1], t2);
    PrioritizedTakes(d, c[0], t1, d[4]);
    FourCards(d[4], d[1], d[2], d[7]);
  }

  lemma FourCards(a: ProjectCard, b: ProjectCard, c: ProjectCard, e: ProjectCard)
    ensures [a] + ([b] + ([c] + ([e] + []))) == [a, b, c, e]
  {
  }

  /** With the keys re-spelled, the prioritized part is rows 4, 1, 2 and 7, in the list's order. */
  lemma CorrectedPrioritized(d: seq<ProjectCard>)
    requires HasTableSrcs(d)
    ensures Prioritized(d, CORRECTED_ORDER) == [d[4], d[1], d[2], d[7]]
  {
    var c := CORRECTED_ORDER;
    CorrectedOrderKeys();
    forall i | 1 <= i < 3 || 4 <= i < 7 || i == 8 ensures LookupLast(d, c[i]).None? {
      TableMissing(d, c[i]);
    }
    TableLookup(d, 4);
    TableLookup(d, 1);
    TableLookup(d, 2);
    TableLookup(d, 7);
    CorrectedPrioritizedOf(d, c);
  }

  /** Nine cards of which only rows 2 and 7 are listed leave the other seven, in their order. */
  lemma AsWrittenRemainingOf(d: seq<ProjectCard>, o: seq<string>)
    requires |d| == 9
    requires d[0].src !in o && d[1].src !in o && d[2].src in o && d[3].src !in o && d[4].src !in o
    requires d[5].src !in o && d[6].src !in o && d[7].src in o && d[8].src !in o
    ensures Remaining(d, o) == [d[0], d[1], d[3], d[4], d[5], d[6], d[8]]
  {
    RowsShape(d);
    var t8 := [d[8]] + [];
    var t7 := [d[7]] + t8;
    var t6 := [d[6]] + t7;
    var t5 := [d[5]] + t6;
    var t4 := [d[4]] + t5;
    var t3 := [d[3]] + t4;
    var t2 := [d[2]] + t3;
    var t1 := [d[1]] + t2;
    RemainingKeepsFirst(d[8], [], o);
    RemainingDrops(d[7], t8, o);
    RemainingKeepsFirst(d[6], t7, o);
    RemainingKeepsFirst(d[5], t6, o);
    RemainingKeepsFirst(d[4], t5, o);
    RemainingKeepsFirst(d[3], t4, o);
    RemainingDrops(d[2], t3, o);
    RemainingKeepsFirst(d[1], t2, o);
    RemainingKeepsFirst(d[0], t1, o);
    AsWrittenRestShape(d);
  }

  lemma RowsShape(d: seq<ProjectCard>)
    requires |d| == 9
    ensures d == [d[0]] + ([d[1]] + ([d[2]] + ([d[3]] + ([d[4]] + ([d[5]] + ([d[6]] + ([d[7]] + ([d[8]] + []))))))))
  {
  }

  lemma AsWrittenRestShape(d: seq<ProjectCard>)
    requires |d| == 9
    ensures [d[0]] + ([d[1]] + ([d[3]] + ([d[4]] + ([d[5]] + ([d[6]] + ([d[8]] + []))))))
         == [d[0], d[1], d[3], d[4], d[5], d[6], d[8]]
  {
  }

  /** As written, the rest keeps the table's order without rows 2 and 7. */
  lemma AsWrittenRemaining(d: seq<ProjectCard>)
    requires HasTableSrcs(d)
    ensures Remaining(d, MOBILE_PROJECT_ORDER) == [d[0], d[1], d[3], d[4], d[5], d[6], d[8]]
  {
    ListedRows();
    AsWrittenRemainingListed(d, MOBILE_PROJECT_ORDER);
  }

  lemma AsWrittenRemainingListed(d: seq<ProjectCard>, o: seq<string>)
    requires HasTableSrcs(d)
    requires forall j :: 0 <= j < 9 ==> (TABLE_SRCS[j] in o <==> j == 2 || j == 7)
    ensures Remaining(d, o) == [d[0], d[1], d[3], d[4], d[5], d[6], d[8]]
  {
    AsWrittenRemainingOf(d, o);
  }

  /** Nine cards of which rows 1, 2, 4 and 7 are listed leave rows 0, 3, 5, 6 and 8, in their order. */
  lemma CorrectedRemainingOf(d: seq<ProjectCard>, c: seq<string>)
    requires |d| == 9
    requires d[0].src !in c && d[1].src in c && d[2].src in c && d[3].src !in c && d[4].src in c
    requires d[5].src !in c && d[6].src !in c && d[7].src in c && d[8].src !in c
    ensures Remaining(d, c) == [d[0], d[3], d[5], d[6], d[8]]
  {
    RowsShape(d);
    var t8 := [d[8]] + [];
    var t7 := [d[7]] + t8;
    var t6 := [d[6]] + t7;
    var t5 := [d[5]] + t6;
    var t4 := [d[4]] + t5;
    var t3 := [d[3]] + t4;
    var t2 := [d[2]] + t3;
    var t1 := [d[1]] + t2;
    RemainingKeepsFirst(d[8], [], c);
    RemainingDrops(d[7], t8, c);
    RemainingKeepsFirst(d[6], t7, c);
    RemainingKeepsFirst(d[5], t6, c);
    RemainingDrops(d[4], t5, c);
    RemainingKeepsFirst(d[3], t4, c);
    RemainingDrops(d[2], t3, c);
    RemainingDrops(d[1], t2, c);
    RemainingKeepsFirst(d[0], t1, c);
    CorrectedRestShape(d);
  }

  lemma CorrectedRestShape(d: seq<ProjectCard>)
    requires |d| == 9
    ensures [d[0]] + ([d[3]] + ([d[5]] + ([d[6]] + ([d[8]] + [])))) == [d[0], d[3], d[5], d[6], d[8]]
  {
  }

  /** With the keys re-spelled, the rest is rows 0, 3, 5, 6 and 8, in the table's order. */
  lemma CorrectedRemaining(d: seq<ProjectCard>)
    requires HasTableSrcs(d)
    ensures Remaining(d, CORRECTED_ORDER) == [d[0], d[3], d[5], d[6], d[8]]
  {
    ListedRows();
    CorrectedRemainingListed(d, CORRECTED_ORDER);
  }

  lemma CorrectedRemainingListed(d: seq<ProjectCard>, c: seq<string>)
    requires HasTableSrcs(d)
    requires forall j :: 0 <= j < 9 ==> (TABLE_SRCS[j] in c <==> j == 1 || j == 2 || j == 4 || j == 7)
    ensures Remaining(d, c) == [d[0], d[3], d[5], d[6], d[8]]
  {
    CorrectedRemainingOf(d, c);
  }

  /** As written, any table with these srcs is shown rows 2 and 7 first, then the rest in order. */
  lemma AsWrittenCarousel(d: seq<ProjectCard>)
    requires HasTableSrcs(d)
    ensures OrderProjects(d, MOBILE_PROJECT_ORDER) == [d[2], d[7], d[0], d[1], d[3], d[4], d[5], d[6], d[8]]
  {
    AsWrittenPrioritized(d);
    AsWrittenRemaining(d);
    AsWrittenCarouselShape(d);
  }

  lemma AsWrittenCarouselShape(d: seq<ProjectCard>)
    requires |d| == 9
    ensures [d[2], d[7]] + [d[0], d[1], d[3], d[4], d[5], d[6], d[8]]
         == [d[2], d[7], d[0], d[1], d[3], d[4], d[5], d[6], d[8]]
  {
  }

  /** With the keys re-spelled, any table with these srcs is shown rows 4, 1, 2 and 7 first, then the rest in order. */
  lemma CorrectedCarousel(d: seq<ProjectCard>)
    requires HasTableSrcs(d)
    ensures OrderProjects(d, CORRECTED_ORDER) == [d[4], d[1], d[2], d[7], d[0], d[3], d[5], d[6], d[8]]
  {
    CorrectedPrioritized(d);
    CorrectedRemaining(d);
    CorrectedCarouselShape(d);
  }

  lemma CorrectedCarouselShape(d: seq<ProjectCard>)
    requires |d| == 9
    ensures [d[4], d[1], d[2], d[7]] + [d[0], d[3], d[5], d[6], d[8]]
         == [d[4], d[1], d[2], d[7], d[0], d[3], d[5], d[6], d[8]]
  {
  }

  /**
   * The carousel as written: the first-portfolio and snake cards lead, and
   * the other seven follow in the table's order.
   */
  lemma CarouselOrderAsWritten()
    ensures OrderProjects(DATA, MOBILE_PROJECT_ORDER)
            == [DATA[2], DATA[7], DATA[0], DATA[1], DATA[3], DATA[4], DATA[5], DATA[6], DATA[8]]
  {
    TableSrcs();
    AsWrittenCarousel(DATA);
  }

  /**
   * The carousel with the keys re-spelled: the four listed cards lead in the
   * list's order, and the other five follow in the table's order.
   */
  lemma CarouselOrderCorrected()
    ensures OrderProjects(DATA, CORRECTED_ORDER)
            == [DATA[4], DATA[1], DATA[2], DATA[7], DATA[0], DATA[3], DATA[5], DATA[6], DATA[8]]
  {
    TableSrcs();
    CorrectedCarousel(DATA);
  }

  // ---------------------------------------------------------------------
  // One card's text
  // ---------------------------------------------------------------------

  /** `padStart(2, '0')`. */
  function PadStart2(s: string): (r: string)
    ensures |s| >= 2 ==> r == s
    ensures |s| < 2 ==> |r| == 2 && r[2 - |s|..] == s && forall i :: 0 <= i < 2 - |s| ==> r[i] == '0'
  {
    if |s| >= 2 then s else seq(2 - |s|, _ => '0') + s
  }

  /** `slice(-2)`. */
  function LastTwo(s: string): (r: string)
    ensures |s| >= 2 ==> |r| == 2 && s == s[..|s| - 2] + r
    ensures |s| < 2 ==> r == s
  {
    if |s| >= 2 then s[|s| - 2..] else s
  }

  /** The code shown on the card at `index` in `year`. */
  function CardCode(index: nat, year: nat): string {
    PadStart2(Decimal(index + 1)) + "." + LastTwo(Decimal(year))
  }

  lemma DecimalSmall(n: nat)
    requires n < 10
    ensures Decimal(n) == [DigitChar(n)]
  {
  }

  lemma DecimalTwoDigits(n: nat)
    requires 10 <= n < 100
    ensures Decimal(n) == [DigitChar(n / 10), DigitChar(n % 10)]
  {
    DecimalSmall(n / 10);
  }

  /** The last digit of `String(n)` is `n % 10`, and the one before it `(n / 10) % 10` once `n >= 10`. */
  lemma DecimalLastDigits(n: nat)
    ensures var d := Decimal(n); d[|d| - 1] == DigitChar(n % 10)
    ensures n >= 10 ==> var d := Decimal(n); |d| >= 2 && d[|d| - 2] == DigitChar((n / 10) % 10)
  {
    if n >= 10 {
      DecimalLastDigits(n / 10);
    }
  }

  /**
   * For up to 99 cards and a year of at least two digits, the code is the
   * card's 1-based position in two digits, a dot and the year's last two
   * digits.
   */
  lemma CardCodeSpec(index: nat, year: nat)
    requires index < 99 && year >= 10
    ensures var code := CardCode(index, year);
            && |code| == 5
            && code[0] == DigitChar((index + 1) / 10) && code[1] == DigitChar((index + 1) % 10)
            && code[2] == '.'
            && code[3] == DigitChar((year / 10) % 10) && code[4] == DigitChar(year % 10)
  {
    if index + 1 < 10 {
      DecimalSmall(index + 1);
    } else {
      DecimalTwoDigits(index + 1);
    }
    DecimalLastDigits(year);
  }

  /** `TITLE_BY_SRC[src] ?? project.title`. */
  function DisplayTitle(c: ProjectCard): string {
    if c.src in TITLE_BY_SRC then TITLE_BY_SRC[c.src] else c.title
  }

  /** `SUMMARY_BY_SRC[src] ?? default`, for a given summary table. */
  function SummaryFrom(table: map<string, string>, c: ProjectCard): string {
    if c.src in table then table[c.src] else DEFAULT_SUMMARY
  }

  /** No card in the table has a title override, so every card shows its own title. */
  lemma CardTitles()
    ensures forall i :: 0 <= i < |DATA| ==> DisplayTitle(DATA[i]) == DATA[i].title
  {
  }

  /**
   * As written, the first-portfolio card gets its summary while the
   * server-room card falls back to the default text; with the re-spelled
   * keys it gets its own.
   */
  lemma CardSummaries()
    ensures SummaryFrom(SUMMARY_BY_SRC, DATA[2]) == SUMMARY_BY_SRC["/Projects/OldPortfolio/home.webp"]
    ensures SummaryFrom(SUMMARY_BY_SRC, DATA[4]) == DEFAULT_SUMMARY
    ensures SummaryFrom(CORRECTED_SUMMARY_BY_SRC, DATA[4]) == SUMMARY_BY_SRC["/Projects/BGCLCV/teenCenterPc.webp"]
  {
    FirstPortfolioSummary();
    ServerRoomSummaryAsWritten();
    ServerRoomSummaryCorrected();
  }

  lemma FirstPortfolioSummary()
    ensures SummaryFrom(SUMMARY_BY_SRC, DATA[2]) == SUMMARY_BY_SRC["/Projects/OldPortfolio/home.webp"]
  {
  }

  lemma ServerRoomSummaryAsWritten()
    ensures SummaryFrom(SUMMARY_BY_SRC, DATA[4]) == DEFAULT_SUMMARY
  {
  }

  lemma ServerRoomSummaryCorrected()
    ensures SummaryFrom(CORRECTED_SUMMARY_BY_SRC, DATA[4]) == SUMMARY_BY_SRC["/Projects/BGCLCV/teenCenterPc.webp"]
  {
  }

  // ---------------------------------------------------------------------
  // The carousel's state
  // ---------------------------------------------------------------------

  /** `Math.max(0, Math.min(index, count - 1))`. */
  function Clamp(index: int, count: nat): (r: nat)
    ensures count >= 1 ==> r < count
    ensures count == 0 ==> r == 0
    ensures 0 <= index < count ==> r == index
    ensures index < 0 ==> r == 0
    ensures index >= count ==> r == if count == 0 then 0 else count - 1
  {
    if index < count - 1 then (if index < 0 then 0 else index) else (if count - 1 < 0 then 0 else count - 1)
  }

  /**
   * `currentIndex`, `openProjectIndex`, `detailContentReady`, and whether
   * the 120 ms content timer is pending.
   */
  datatype CarouselState = CarouselState(
    currentIndex: nat,
    openProject: Option<nat>,
    detailReady: bool,
    timerPending: bool)

  const INITIAL_CAROUSEL := CarouselState(0, None, false, false)

  /** `scrollToIndex`, and the track's scroll handler with the index it rounds to. */
  function ScrollStep(s: CarouselState, count: nat, index: int): CarouselState {
    s.(currentIndex := Clamp(index, count))
  }

  predicate PrevDisabled(s: CarouselState) {
    s.currentIndex <= 0
  }

  predicate NextDisabled(s: CarouselState, count: nat) {
    s.currentIndex >= count - 1
  }

  /** A button click: only an enabled button scrolls. */
  function PrevStep(s: CarouselState, count: nat): CarouselState {
    if PrevDisabled(s) then s else ScrollStep(s, count, s.currentIndex - 1)
  }

  function NextStep(s: CarouselState, count: nat): CarouselState {
    if NextDisabled(s, count) then s else ScrollStep(s, count, s.currentIndex + 1)
  }

  /**
   * Opening a card; the content effect runs only when the open index
   * changes, and then clears the content and restarts the timer.
   */
  function OpenStep(s: CarouselState, index: nat): CarouselState {
    if s.openProject == Some(index) then s
    else s.(openProject := Some(index), detailReady := false, timerPending := true)
  }

  /** The backdrop or the close button: the effect hides the content and leaves no timer. */
  function CloseStep(s: CarouselState): CarouselState {
    if s.openProject.None? then s
    else s.(openProject := None, detailReady := false, timerPending := false)
  }

  /** The 120 ms timer fires. */
  function TimerStep(s: CarouselState): CarouselState
    requires s.timerPending
  {
    s.(detailReady := true, timerPending := false)
  }

  /**
   * The index shows a card (or is 0 when there are none), the open card is
   * one of the cards, and the content is ready or pending only while a
   * card is open, never both.
   */
  predicate CarouselValid(s: CarouselState, count: nat) {
    && (if count == 0 then s.currentIndex == 0 else s.currentIndex < count)
    && (s.openProject.Some? ==> s.openProject.value < count)
    && (s.detailReady ==> s.openProject.Some? && !s.timerPending)
    && (s.timerPending ==> s.openProject.Some?)
  }

  /** Every step keeps the carousel valid. */
  lemma CarouselStepsPreserveValid(s: CarouselState, count: nat, index: int, card: nat)
    requires CarouselValid(s, count)
    ensures CarouselValid(INITIAL_CAROUSEL, count)
    ensures CarouselValid(ScrollStep(s, count, index), count)
    ensures CarouselValid(PrevStep(s, count), count)
    ensures CarouselValid(NextStep(s, count), count)
    ensures card < count ==> CarouselValid(OpenStep(s, card), count)
    ensures CarouselValid(CloseStep(s), count)
    ensures s.timerPending ==> CarouselValid(TimerStep(s), count)
  {
  }

  /**
   * Prev is disabled exactly on the first card and Next exactly on the
   * last; an enabled button moves by one card.
   */
  lemma ButtonsSpec(s: CarouselState, count: nat)
    requires CarouselValid(s, count) && count >= 1
    ensures PrevDisabled(s) <==> s.currentIndex == 0
    ensures NextDisabled(s, count) <==> s.currentIndex == count - 1
    ensures !PrevDisabled(s) ==> PrevStep(s, count).currentIndex == s.currentIndex - 1
    ensures !NextDisabled(s, count) ==> NextStep(s, count).currentIndex == s.currentIndex + 1
  {
  }

  /**
   * Opening a card hides its content until the timer fires, which shows
   * it; closing hides it with no timer left.
   */
  lemma DetailContentSpec(s: CarouselState, card: nat)
    requires s.openProject.None?
    ensures var o := OpenStep(s, card);
            && o.openProject == Some(card) && !o.detailReady && o.timerPending
            && TimerStep(o).detailReady
            && !CloseStep(TimerStep(o)).detailReady && !CloseStep(TimerStep(o)).timerPending
            && !CloseStep(o).timerPending
  {
  }

  /**
   * The carousel's state variables and the pending content timer, updated
   * in place by its handlers; each method performs the corresponding step.
   */
  class Carousel {
    const count: nat
    var currentIndex: nat
    var openProject: Option<nat>
    var detailReady: bool
    var timerPending: bool

    function Snapshot(): CarouselState
      reads this
    {
      CarouselState(currentIndex, openProject, detailReady, timerPending)
    }

    constructor (projectCount: nat)
      ensures count == projectCount && Snapshot() == INITIAL_CAROUSEL
    {
      count := projectCount;
      currentIndex := 0;
      openProject := None;
      detailReady := false;
      timerPending := false;
    }

    method ScrollToIndex(index: int)
      modifies this
      ensures Snapshot() == ScrollStep(old(Snapshot()), count, index)
    {
      var clamped := Clamp(index, count);
      currentIndex := clamped;
    }

    /** The scroll handler, given the index the scroll position rounds to. */
    method OnTrackScroll(next: int)
      modifies this
      ensures Snapshot() == ScrollStep(old(Snapshot()), count, next)
    {
      var clamped := Clamp(next, count);
      if clamped != currentIndex {
        currentIndex := clamped;
      }
    }

    method OnPrev()
      modifies this
      ensures Snapshot() == PrevStep(old(Snapshot()), count)
    {
      if currentIndex > 0 {
        ScrollToIndex(currentIndex - 1);
      }
    }

    method OnNext()
      modifies this
      ensures Snapshot() == NextStep(old(Snapshot()), count)
    {
      if currentIndex < count - 1 {
        ScrollToIndex(currentIndex + 1);
      }
    }

    method HandleOpenProject(index: nat)
      modifies this
      ensures Snapshot() == OpenStep(old(Snapshot()), index)
    {
      if openProject != Some(index) {
        openProject := Some(index);
        detailReady := false;
        timerPending := true;
      }
    }

    method Close()
      modifies this
      ensures Snapshot() == CloseStep(old(Snapshot()))
    {
      if openProject.Some? {
        openProject := None;
        detailReady := false;
        timerPending := false;
      }
    }

    method FireDetailTimer()
      requires timerPending
      modifies this
      ensures Snapshot() == TimerStep(old(Snapshot()))
    {
      detailReady := true;
      timerPending := false;
    }
  }
}
