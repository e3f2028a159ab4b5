/**
 * The project table and the project-details panel (Data.tsx): a lookup of
 * the authored content by title with a placeholder fallback, the "Type"
 * line with its defaults, the thumbnail priority and the visibility of the
 * links and preview sections. The long description texts are not part of
 * this model; everything the panel decides on is.
 */
module ProjectData {
  import opened Wrappers

  datatype Link = Link(name: string, url: string)

  /** A gallery entry; `kind` is the optional `type` field ('video' for clips). */
  datatype MediaItem = MediaItem(src: string, alt: string, kind: Option<string>)

  datatype ProjectContentEntry = ProjectContentEntry(
    title: string,
    techStack: seq<string>,
    date: string,
    links: seq<Link>,
    images: seq<MediaItem>)

  /** The props a data row hands to the details panel. */
  datatype ProjectProps = ProjectProps(title: string, category: Option<string>, thumbnail: Option<string>)

  /** A row of the exported `data` table. */
  datatype ProjectCard = ProjectCard(category: string, title: string, src: string, content: ProjectProps)

  const PROJECT_CONTENT: seq<ProjectContentEntry> := [
    ProjectContentEntry(
      "Synto",
      ["Next.js", "TailwindCSS", "Web3.js", "shadcn-ui", "TypeScript", "Phantom Wallet", "OpenAI API", "Vercel AI SDK", "Solana Agent kit", "Neon", "Prisma"],
      "2025",
      [Link("website", "https://synto.fun"),
        Link("Launch Video", "https://www.youtube.com/watch?v=4QUE2KgKDUw"),
        Link("X", "https://x.com/chainSynto"),
        Link("Technical Video", "https://www.youtube.com/watch?v=1CjBLKPUwtA&feature=youtu.be"),
        Link("Pitch Deck", "https://drive.google.com/file/d/1B3m44mEgv81rJHfjNfTKi147yX4raQed/view?usp=sharing"),
        Link("Usage tutorial", "https://www.youtube.com/watch?v=PRu1cfvT2bA")],
      [MediaItem("/synto1.png", "Synto landing page", None),
        MediaItem("/synto2.png", "Synto chat interface", None),
        MediaItem("/synto3.png", "Synto chat interface", None),
        MediaItem("/synto4.png", "Synto chat interface", None),
        MediaItem("/synto5.png", "Synto chat interface", None),
        MediaItem("/synto6.png", "Synto chat interface", None)]),
    ProjectContentEntry(
      "CyberCodex.io",
      ["React", "Next.js", "TypeScript", "Tailwind CSS", "Framer Motion"],
      "2025",
      [Link("website", "https://cybercodex.io")],
      [MediaItem("/Projects/Cybercodex.io/cyberCodex.mp4", "CyberCodex.io demo video", Some("video")),
        MediaItem("/Projects/Cybercodex.io/homepage.webp", "CyberCodex.io homepage", None),
        MediaItem("/Projects/Cybercodex.io/dashboard.webp", "CyberCodex.io dashboard", None),
        MediaItem("/Projects/Cybercodex.io/community.webp", "CyberCodex.io community", None),
        MediaItem("/Projects/Cybercodex.io/courses.webp", "CyberCodex.io courses page", None)]),
    ProjectContentEntry(
      "First Portfolio",
      ["HTML", "CSS", "JavaScript", "Swiper", "EmailJS", "jsDelivr"],
      "2023",
      [Link("Website", "https://toukoum.github.io/oldPortfolio/"),
        Link("GitHub", "https://github.com/toukoum/portfolio")],
      [MediaItem("/Projects/OldPortfolio/home.webp", "Old Portfolio homepage", None),
        MediaItem("/Projects/OldPortfolio/projects.webp", "Old Portfolio projects section", None),
        MediaItem("/Projects/OldPortfolio/posts.webp", "Old Portfolio blog posts", None),
        MediaItem("/Projects/OldPortfolio/contact.webp", "Old Portfolio contact page", None),
        MediaItem("/Projects/OldPortfolio/resume.webp", "Old Portfolio resume section", None)]),
    ProjectContentEntry(
      "Fitgear",
      ["Next.js", "TailwindCSS", "OpenAI API", "Langchain"],
      "2024",
      [Link("Linkedin", "https://www.linkedin.com/posts/raphael-giraud-60939519a_hackathon-innovation-sporttech-activity-7210399263774674946-qSXq?utm_source=social_share_send&utm_medium=member_desktop_web&rcm=ACoAAC6vwikBVSEkS7XWktWS7y6GR3GHwAlKslc")],
      [MediaItem("/fitgear2.png", "Fitgear chatbot", None),
        MediaItem("/fitgear1.png", "Fitgear landing page", None)]),
    ProjectContentEntry(
      "Server Room (NPCE)",
      ["MXnet Video Ecosystem", "SonicWall", "Ubiquiti CloudKey", "Ubiquiti Cameras", "Ubiquiti UniFi Switches"],
      "2024",
      [],
      [MediaItem("/projects/BGCLCV/teenCenterPc.webp", "Teen Center PC Setup", None),
        MediaItem("/projects/BGCLCV/serverRoom.jpeg", "Server Room", None),
        MediaItem("/projects/BGCLCV/serverRoomAngle.jpeg", "Server Room Angle View", None),
        MediaItem("/projects/BGCLCV/serverSonicwall.jpeg", "Server Sonicwall Setup", None),
        MediaItem("/projects/BGCLCV/esportsRoom.webp", "Esports Room", None),
        MediaItem("/projects/BGCLCV/teenCenter.webp", "Teen Center", None),
        MediaItem("/projects/BGCLCV/gymHoop.webp", "Gym Basketball Hoop", None)]),
    ProjectContentEntry(
      "3d Pong Game",
      ["Django", "Python", "JavaScript", "Websockets", "PostgreSQL", "Docker", "Nginx", "Web3", "Solidity"],
      "2023",
      [Link("GitHub", "https://github.com/toukoum/Transcendance")],
      [MediaItem("/trans1.png", "Transcendance landing page", None),
        MediaItem("/trans2.webp", "Transcendance game", None),
        MediaItem("/trans3.png", "Transcendance game", None),
        MediaItem("/trans4.png", "Transcendance game", None),
        MediaItem("/trans5.png", "Transcendance game", None),
        MediaItem("/trans6.png", "Transcendance game", None)]),
    ProjectContentEntry(
      "Minishell",
      ["C", "Unix", "Bash"],
      "2023",
      [Link("GitHub", "https://github.com/toukoum/Michelle-42")],
      [MediaItem("/minishell1.png", "Minishell landing page", None)]),
    ProjectContentEntry(
      "Retro Snake",
      ["C++", "Bash"],
      "2023",
      [],
      [MediaItem("/Projects/Snake/snake.webp", "Retro Snake gameplay", None),
        MediaItem("/Projects/Snake/menu.webp", "Retro Snake menu", None)]),
    ProjectContentEntry(
      "Old Portfolio",
      ["HTML", "CSS", "JavaScript", "GSAP"],
      "2022",
      [Link("Website", "https://toukoum.github.io/oldPortfolio/"),
        Link("GitHub", "https://github.com/toukoum/portfolio")],
      [MediaItem("/oldport1.png", "Old Portfolio landing page", None),
        MediaItem("/oldport2.png", "Old Portfolio projects", None)])

  ]

  function Card(category: string, title: string, src: string, contentTitle: string): ProjectCard {
    ProjectCard(category, title, src, ProjectProps(contentTitle, Some(category), Some(src)))
  }

  /** The exported `data` table; each row's panel shows the content titled `contentTitle`. */
  const DATA: seq<ProjectCard> := [
    Card("Startup Project", "CyberCodex.io", "/syntopreview.png", "Synto"),
    Card("Cybersecurity Platform", "CyberCodex.io", "/Projects/Cybercodex.io/courses.webp", "CyberCodex.io"),
    Card("Web Development", "First Portfolio", "/Projects/OldPortfolio/home.webp", "First Portfolio"),
    Card("Hackathon Winner", "Fitgear", "/fitgearpreview.png", "Fitgear"),
    Card("Infrastructure & Networking", "Server Room (NPCE)", "/projects/BGCLCV/teenCenterPc.webp", "Server Room (NPCE)"),
    Card("42 Project", "3d Pong Game", "/transcendancepreview.png", "3d Pong Game"),
    Card("42 Project", "Minishell", "/minishellpreview.png", "Minishell"),
    Card("Game Development", "Retro Snake", "/Projects/Snake/snake.webp", "Retro Snake"),
    Card("Web Development", "Old Portfolio", "/oldportfoliopreview.png", "Old Portfolio")
  ]

  /** JavaScript truthiness of an optional string: present and non-empty. */
  predicate Truthy(s: Option<string>) {
    s.Some? && s.value != ""
  }

  /** `PROJECT_CONTENT.find(p => p.title === title)`: the first entry carrying that title. */
  function FindByTitle(entries: seq<ProjectContentEntry>, title: string): (r: Option<ProjectContentEntry>)
    ensures r.Some? ==> r.value in entries && r.value.title == title
  {
    if entries == [] then None
    else if entries[0].title == title then Some(entries[0])
    else FindByTitle(entries[1..], title)
  }

  /** The search fails exactly when no entry has the title, and otherwise yields the earliest one. */
  lemma {:induction false} FindByTitleSpec(entries: seq<ProjectContentEntry>, title: string)
    ensures FindByTitle(entries, title).None? <==> forall i :: 0 <= i < |entries| ==> entries[i].title != title
    ensures FindByTitle(entries, title).Some? ==>
              exists i :: 0 <= i < |entries| && entries[i] == FindByTitle(entries, title).value
                          && forall j :: 0 <= j < i ==> entries[j].title != title
  {
    if entries != [] && entries[0].title != title {
      FindByTitleSpec(entries[1..], title);
      var r := FindByTitle(entries, title);
      assert forall i :: 1 <= i < |entries| ==> entries[i] == entries[1..][i - 1];
      if r.Some? {
        var k :| 0 <= k < |entries[1..]| && entries[1..][k] == r.value
                 && forall j :: 0 <= j < k ==> entries[1..][j].title != title;
        assert entries[k + 1] == r.value;
        assert forall j :: 0 <= j < k + 1 ==> entries[j].title != title by {
          forall j | 0 <= j < k + 1 ensures entries[j].title != title {
            if j > 0 { assert entries[j] == entries[1..][j - 1]; }
          }
        }
      }
    }
  }

  /** The "Type:" line: the category (default 'Project') and the first technology (default 'Development'). */
  function TypeString(category: Option<string>, techStack: seq<string>): string {
    (if Truthy(category) then category.value else "Project")
    + " > "
    + (if |techStack| > 0 && techStack[0] != "" then techStack[0] else "Development")
  }

  datatype Thumbnail = GivenThumbnail(src: string) | GalleryThumbnail(src: string) | PlaceholderIcon

  /** The header image: the prop thumbnail, else the first gallery item, else an icon. */
  function ChooseThumbnail(thumbnail: Option<string>, images: seq<MediaItem>): Thumbnail {
    if Truthy(thumbnail) then GivenThumbnail(thumbnail.value)
    else if |images| > 0 then GalleryThumbnail(images[0].src)
    else PlaceholderIcon
  }

  datatype MediaView = VideoView(src: string) | ImageView(src: string, alt: string)

  /** A gallery item plays as a video exactly when its type is 'video'. */
  function RenderMedia(m: MediaItem): MediaView {
    if m.kind == Some("video") then VideoView(m.src) else ImageView(m.src, m.alt)
  }

  /**
   * What the details panel shows. `links` and `preview` are None when the
   * section is not rendered at all.
   */
  datatype ContentView =
    | NotAvailable
    | Details(heading: string, subtitle: string, typeString: string, year: string,
              thumbnail: Thumbnail, technologies: seq<string>,
              links: Option<seq<Link>>, preview: Option<seq<MediaView>>)

  /** `ProjectContent` over a given content table. */
  function RenderFrom(entries: seq<ProjectContentEntry>, project: ProjectProps): ContentView {
    match FindByTitle(entries, project.title)
    case None => NotAvailable
    case Some(p) =>
      Details(
        p.title,
        if Truthy(project.category) then project.category.value else "Project",
        TypeString(project.category, p.techStack),
        p.date,
        ChooseThumbnail(project.thumbnail, p.images),
        p.techStack,
        if |p.links| > 0 then Some(p.links) else None,
        if |p.images| > 0 then Some(seq(|p.images|, i requires 0 <= i < |p.images| => RenderMedia(p.images[i]))) else None)
  }

  /** `ProjectContent`: the details panel for one set of props. */
  function RenderProjectContent(project: ProjectProps): ContentView {
    RenderFrom(PROJECT_CONTENT, project)
  }

  /** The type line names the category or 'Project', and the first technology or 'Development'. */
  lemma TypeStringDefaults(category: Option<string>, techStack: seq<string>, c: string, t: string)
    requires Truthy(category) ==> c == category.value
    requires !Truthy(category) ==> c == "Project"
    requires |techStack| > 0 && techStack[0] != "" ==> t == techStack[0]
    requires !(|techStack| > 0 && techStack[0] != "") ==> t == "Development"
    ensures TypeString(category, techStack) == c + " > " + t
    ensures TypeString(None, []) == "Project > Development"
  {
  }

  /** The thumbnail priority: a non-empty prop wins; otherwise the first gallery item; otherwise the icon. */
  lemma ThumbnailPriority(thumbnail: Option<string>, images: seq<MediaItem>)
    ensures ChooseThumbnail(thumbnail, images).GivenThumbnail? <==> Truthy(thumbnail)
    ensures ChooseThumbnail(thumbnail, images).GalleryThumbnail? <==> !Truthy(thumbnail) && |images| > 0
    ensures ChooseThumbnail(thumbnail, images).GalleryThumbnail? ==> ChooseThumbnail(thumbnail, images).src == images[0].src
    ensures ChooseThumbnail(thumbnail, images).PlaceholderIcon? <==> !Truthy(thumbnail) && images == []
  {
  }

  /** The sections the panel shows for a found entry `p`. */
  predicate ShowsEntry(v: ContentView, p: ProjectContentEntry, project: ProjectProps) {
    && v.Details?
    && v.heading == p.title && v.year == p.date && v.technologies == p.techStack
    && v.typeString == TypeString(project.category, p.techStack)
    && v.thumbnail == ChooseThumbnail(project.thumbnail, p.images)
    && (v.links.Some? <==> p.links != [])
    && (v.links.Some? ==> v.links.value == p.links)
    && (v.preview.Some? <==> p.images != [])
    && (v.preview.Some? ==>
          && |v.preview.value| == |p.images|
          && forall k :: 0 <= k < |p.images| ==>
               (v.preview.value[k].VideoView? <==> p.images[k].kind == Some("video"))
               && v.preview.value[k].src == p.images[k].src)
  }

  /**
   * The panel is the placeholder exactly when no content entry has the
   * title; otherwise it shows the first entry with that title, with the
   * links and preview sections present exactly when non-empty and each
   * preview item a video exactly when its type is 'video'.
   */
  lemma RenderFromSpec(entries: seq<ProjectContentEntry>, project: ProjectProps)
    ensures RenderFrom(entries, project).NotAvailable? <==>
              forall i :: 0 <= i < |entries| ==> entries[i].title != project.title
    ensures RenderFrom(entries, project).Details? ==>
              exists i :: 0 <= i < |entries| && entries[i].title == project.title
                && (forall j :: 0 <= j < i ==> entries[j].title != project.title)
                && ShowsEntry(RenderFrom(entries, project), entries[i], project)
  {
    FindByTitleSpec(entries, project.title);
  }

  /** Every row of the exported table opens a real details panel, never the placeholder. */
  lemma DataRowsResolve()
    ensures |DATA| == 9
    ensures forall i :: 0 <= i < |DATA| ==> RenderProjectContent(DATA[i].content).Details?
  {
    forall i | 0 <= i < |DATA| ensures RenderProjectContent(DATA[i].content).Details? {
      assert PROJECT_CONTENT[i].title == DATA[i].content.title;
      RenderFromSpec(PROJECT_CONTENT, DATA[i].content);
    }
  }
}
