/** The records the `Portfolio` class of js/main.js loads and renders, the
    fallback lists it installs when loading fails, the timeline it embeds,
    and the lookup `openProjectModal` does by project id. */
module PortfolioData {
  import opened Options

  /** An entry of data/projects.json or of the fallback project list. */
  datatype Project = Project(
    id: string,
    title: string,
    description: string,
    images: seq<string>,
    technologies: seq<string>,
    folder: string)

  /** An entry of data/skills.json or of the fallback skill list. */
  datatype SkillGroup = SkillGroup(
    category: string,
    icon: string,
    skills: seq<string>,
    description: string)

  /** An entry of the timeline `loadData` embeds. */
  datatype TimelineEntry = TimelineEntry(year: string, title: string, description: string)

  /** The three projects `setFallbackData` installs (js/main.js:524-549). */
  const FallbackProjects: seq<Project> := [
    Project(
      "project1",
      "Customer Payment & Revenue Insights",
      "Comprehensive Power BI dashboard analyzing customer payments and revenue streams with advanced DAX formulas.",
      ["Projects/P3ABC/1.png", "Projects/P3ABC/Sprint.png", "Projects/P3ABC/UAT Results.png"],
      ["Power BI", "Excel", "DAX", "Power Query"],
      "P3ABC"),
    Project(
      "project2",
      "E-Commerce Sales Insights",
      "Analysis of 128,000+ orders identifying cancellation patterns and optimization opportunities.",
      ["Projects/Projectec/1.png", "Projects/Projectec/2.png", "Projects/Projectec/3.png", "Projects/Projectec/4.png"],
      ["Power BI", "Power Query", "Excel", "DAX"],
      "Projectec"),
    Project(
      "project3",
      "Crypto Market Risk Dashboard",
      "Advanced cryptocurrency market analysis with volatility tracking and risk assessment metrics.",
      ["Projects/Projectcrypto/1.png", "Projects/Projectcrypto/2.png", "Projects/Projectcrypto/3.png"],
      ["Power BI", "Financial Modeling", "Risk Analysis"],
      "Projectcrypto")
  ]

  /** The four skill groups `setFallbackData` installs (js/main.js:551-576). */
  const FallbackSkills: seq<SkillGroup> := [
    SkillGroup(
      "Business Analysis", "fas fa-chart-line",
      ["Requirements Gathering", "Stakeholder Management", "UAT Coordination", "Process Optimization"],
      "Expert in translating business needs into actionable insights"),
    SkillGroup(
      "Data Analysis", "fas fa-database",
      ["Financial Modeling", "Risk Assessment", "KPI Development", "Trend Analysis"],
      "Advanced analytical skills for complex data interpretation"),
    SkillGroup(
      "Visualization Tools", "fas fa-chart-pie",
      ["Power BI", "Tableau", "Excel Advanced", "DAX Formulas"],
      "Creating compelling visual stories from raw data"),
    SkillGroup(
      "Project Management", "fas fa-tasks",
      ["Agile Methodologies", "Sprint Planning", "Documentation", "Quality Assurance"],
      "Efficient project delivery with stakeholder satisfaction")
  ]

  /** The timeline `loadData` embeds once both fetches succeed (js/main.js:499-515). */
  const EmbeddedTimeline: seq<TimelineEntry> := [
    TimelineEntry(
      "2023", "Started Business Analytics Journey",
      "Enrolled in Bachelor of Business Analytics with Finance Specialization at Avinash College of Commerce. Discovered passion for data-driven decision making."),
    TimelineEntry(
      "2024", "Skill Development & First Projects",
      "Mastered Power BI, Excel, and financial modeling. Completed first major project analyzing customer payment insights with 100% UAT success rate."),
    TimelineEntry(
      "2025", "Portfolio Expansion & Recognition",
      "Developed comprehensive analytics dashboards, earned multiple certifications, and established online presence. Ready to make impact in business analytics field.")
  ]

  /** The fallback lists have three projects and four skill groups with
      distinct project ids, and every fallback project has a first image for
      its card. */
  lemma FallbackShape()
    ensures |FallbackProjects| == 3 && |FallbackSkills| == 4 && |EmbeddedTimeline| == 3
    ensures forall i, j :: 0 <= i < j < |FallbackProjects| ==> FallbackProjects[i].id != FallbackProjects[j].id
    ensures forall i :: 0 <= i < |FallbackProjects| ==> |FallbackProjects[i].images| > 0
  {
  }

  /** The position of the first project with id `id`, as `Array.prototype.find`
      picks it; `None` when there is none. */
  function FindProject(projects: seq<Project>, id: string): (r: Option<nat>)
    ensures r.Some? ==> r.value < |projects| && projects[r.value].id == id
    ensures r.Some? ==> forall j :: 0 <= j < r.value ==> projects[j].id != id
    ensures r.None? <==> forall j :: 0 <= j < |projects| ==> projects[j].id != id
  {
    if |projects| == 0 then None
    else if projects[0].id == id then Some(0)
    else match FindProject(projects[1..], id)
      case Some(k) => Some(k + 1)
      case None => None
  }
}
