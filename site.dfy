/** The shapes of the static site configuration (src/config/site.ts and the
    `Project` record of src/types/portfolio.d.ts), and the parts of its content
    that the site's logic reads, transcribed as constants. */
module Site {
  import opened Common

  datatype NavLink = NavLink(name: string, href: string)

  datatype Language = Language(name: string, level: string)

  datatype Skills = Skills(
    frontend: seq<string>,
    backend: seq<string>,
    infrastructure: seq<string>,
    tools: seq<string>,
    languages: seq<Language>)

  /** A work description may be one paragraph or a list of bullet lines. */
  datatype Description = Paragraph(text: string) | Bullets(lines: seq<string>)

  /** One entry of `experience`; `location` and `tags` are optional. */
  datatype WorkConfig = WorkConfig(
    role: string,
    company: string,
    location: Option<string>,
    period: string,
    description: Description,
    tags: Option<seq<string>>)

  /** One entry of `education`; `location` is optional. */
  datatype EducationConfig = EducationConfig(
    degree: string,
    institution: string,
    location: Option<string>,
    period: string,
    description: seq<string>)

  datatype ProjectLinks = ProjectLinks(github: string, live: string)

  datatype Project = Project(
    id: string,
    title: string,
    description: string,
    longDescription: Option<seq<string>>,
    tags: seq<string>,
    image: string,
    links: ProjectLinks,
    content: Option<string>)

  datatype Social = Social(github: string, linkedin: string, twitter: string, instagram: string)

  datatype ContactDetails = ContactDetails(email: string, phone: string)

  const SiteEmail: string := "aymaneharty@gmail.com"
  const SitePhone: string := "0648-307515"

  const SiteSocial: Social := Social(
    "https://github.com/AymaneWebDev",
    "https://linkedin.com/in/ahmed-aymane",
    "https://twitter.com/AymaneWebDev",
    "https://instagram.com/aymane_harty")

  const SiteContact: ContactDetails := ContactDetails("aymaneharty@gmail.com", "+212 648-307515")

  /** The configured navigation links; note `skills` and `education`, which
      are not ids of the sections the scroll-spy watches. */
  const SiteNavLinks: seq<NavLink> := [
    NavLink("Accueil", "home"),
    NavLink("À propos", "about"),
    NavLink("Expérience", "experience"),
    NavLink("Compétences", "skills"),
    NavLink("Formation", "education"),
    NavLink("Contact", "contact")
  ]

  const SiteSkills: Skills := Skills(
    ["HTML", "CSS", "JavaScript", "Bootstrap", "Tailwind CSS", "jQuery", "React.js"],
    ["MySQL", "PHP", "Laravel", "Python", "PL/SQL", "MongoDB", "SQLite", "Node.js"],
    ["Proxmox", "VMware", "Linux (administration système)"],
    ["Git", "GitLab", "GitHub", "Jira", "SonarQube", "UML", "PERT", "GanttProject", "Postman"],
    [Language("Arabe", "Natif"), Language("Français", "Courant"), Language("Anglais", "Intermédiaire")])

  /** The configured projects, in configuration order. */
  const SiteProjects: seq<Project> := [
    Project("chatbot-ai", "Assistant Virtuel Intelligent",
      "Assistant virtuel alimenté par IA pour la présentation interactive de produits avec interface d'administration complète",
      Some([
        "Développement d'un chatbot intelligent utilisant Rasa NLP pour des conversations naturelles",
        "Interface d'administration sécurisée avec authentification JWT",
        "Tableau de bord analytique pour suivre les interactions utilisateurs",
        "Déploiement sur serveur Proxmox avec configuration Docker"]),
      ["React.js", "Spring Boot", "Rasa NLP", "JWT", "Docker", "Proxmox"],
      "/src/assets/Projects-Pics/chatbot-ai.png",
      ProjectLinks("https://github.com/yourusername/assistant-virtuel", "#"), None),
    Project("gestion-emploi", "Gestion des Emplois du Temps",
      "Application bureau complète pour la gestion automatisée des emplois du temps académiques",
      Some([
        "Interface intuitive avec glisser-déposer pour la création d'emplois du temps",
        "Gestion des salles, des formateurs et des groupes d'étudiants",
        "Export des plannings aux formats PDF et Excel",
        "Base de données SQLite pour un stockage local sécurisé"]),
      ["Python", "Tkinter", "SQLite", "UI/UX Design"],
      "/src/assets/Projects-Pics/gestion-emploi.png",
      ProjectLinks("https://github.com/yourusername/gestion-emploi", "#"), None),
    Project("e-learning", "Plateforme E-learning",
      "Solution complète d'apprentissage en ligne avec suivi des progrès",
      Some([
        "Catalogue de cours avec vidéos, quiz et exercices interactifs",
        "Tableau de bord étudiant avec suivi des progrès",
        "Système de certification automatique",
        "Espace formateur avec outils de création de contenu"]),
      ["React.js", "Node.js", "MongoDB", "Tailwind CSS"],
      "/src/assets/Projects-Pics/e-learning.png",
      ProjectLinks("https://github.com/yourusername/e-learning-platform", "#"), None),
    Project("e-commerce", "Boutique E-commerce",
      "Plateforme de commerce électronique moderne avec panier et paiement",
      Some([
        "Catalogue de produits avec filtres avancés",
        "Panier d'achat persistant",
        "Processus de paiement sécurisé",
        "Espace client avec historique des commandes"]),
      ["HTML", "CSS", "JavaScript", "Bootstrap", "Responsive Design"],
      "/src/assets/Projects-Pics/e-com-interface.png",
      ProjectLinks("https://github.com/yourusername/ecommerce-shop", "#"), None)
  ]
}
