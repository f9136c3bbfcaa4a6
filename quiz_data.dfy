/**
 * The question catalog and the analysis-result records (src/lib/quizData.ts):
 * the types the questionnaire and the results screens share, the nineteen
 * catalog questions and the fixed result the application displays.
 */
module QuizData {
  import opened Wrappers

  /** How a question is answered. */
  datatype QuestionType = Text | Select | MultiSelect | Rating | Textarea

  /** One choice of a select or multi-select question. */
  datatype QuestionOption = QuestionOption(value: string, labelText: string)

  datatype Difficulty = Basic | Intermediate | Advanced

  /**
   * A catalog question.  `required` is the optional boolean of the source;
   * an absent flag reads as false, which is what the answer gate tests.
   */
  datatype Question = Question(
    id: string,
    category: string,
    difficulty: Option<Difficulty>,
    question: string,
    kind: QuestionType,
    options: Option<seq<QuestionOption>>,
    placeholder: Option<string>,
    required: bool,
    helperText: Option<string>
  )

  datatype CareerOutlook = CareerOutlook(
    salaryEntry: string,
    salaryExperienced: string,
    growthPotential: string,
    workLifeBalance: string,
    jobAvailability: string
  )

  /**
   * One recommended career.  Rank and fit score are JavaScript numbers; the
   * model takes them to be integers.
   */
  datatype CareerRecommendation = CareerRecommendation(
    rank: int,
    careerTitle: string,
    fitScore: int,
    whyFits: string,
    roleDescription: string,
    skillsYouHave: seq<string>,
    skillsToDevelop: seq<string>,
    careerOutlook: CareerOutlook,
    nextSteps: seq<string>
  )

  /** `confidenceLevel` is declared as "High" | "Medium" | "Low"; nothing checks it at run time. */
  datatype Summary = Summary(
    topRecommendation: string,
    confidenceLevel: string,
    confidenceExplanation: string
  )

  datatype AnalysisResult = AnalysisResult(recommendations: seq<CareerRecommendation>, summary: Summary)

  // ---------------------------------------------------------------------------
  // Invariants of a catalog and of a result

  /** No two questions share an id. */
  predicate DistinctIds(qs: seq<Question>) {
    forall i, j :: 0 <= i < j < |qs| ==> qs[i].id != qs[j].id
  }

  /** Select kinds carry a non-empty option list; the other kinds carry none. */
  predicate OptionsFitKind(q: Question) {
    if q.kind == Select || q.kind == MultiSelect then q.options.Some? && |q.options.value| > 0
    else q.options.None?
  }

  /** No two options of one list share a value. */
  predicate DistinctValues(options: seq<QuestionOption>) {
    forall i, j :: 0 <= i < j < |options| ==> options[i].value != options[j].value
  }

  /** `v` is the value of one of the options of `q`. */
  predicate IsOptionValue(q: Question, v: string) {
    q.options.Some? && exists i :: 0 <= i < |q.options.value| && q.options.value[i].value == v
  }

  predicate IsConfidenceLevel(level: string) {
    level == "High" || level == "Medium" || level == "Low"
  }

  /** Ranks 1, 2, ... in list order. */
  predicate RankedInOrder(recs: seq<CareerRecommendation>) {
    forall i :: 0 <= i < |recs| ==> recs[i].rank == i + 1
  }

  /** Fit scores strictly fall from one rank to the next. */
  predicate FitScoresDecreasing(recs: seq<CareerRecommendation>) {
    forall i :: 0 < i < |recs| ==> recs[i - 1].fitScore > recs[i].fitScore
  }

  /** The 60..95 band the analysis prompt asks for. */
  predicate FitScoresInBand(recs: seq<CareerRecommendation>) {
    forall i :: 0 <= i < |recs| ==> 60 <= recs[i].fitScore <= 95
  }

  // ---------------------------------------------------------------------------
  // The catalog

  const NameQuestion: Question := Question(
    id := "name",
    category := "Introduction",
    difficulty := Some(Basic),
    question := "What's your name?",
    kind := Text,
    options := None,
    placeholder := Some("e.g., Rahul Sharma"),
    required := true,
    helperText := Some("Just your first name is fine too")
  )

  const MajorOptions: seq<QuestionOption> := [
    QuestionOption("cs", "Computer Science"),
    QuestionOption("it", "Information Technology"),
    QuestionOption("ece", "Electronics & Communication"),
    QuestionOption("ee", "Electrical Engineering"),
    QuestionOption("me", "Mechanical Engineering"),
    QuestionOption("ce", "Civil Engineering"),
    QuestionOption("chem", "Chemical Engineering"),
    QuestionOption("biotech", "Biotechnology"),
    QuestionOption("aids", "AI & Data Science"),
    QuestionOption("other", "Other Engineering")
  ]

  const MajorQuestion: Question := Question(
    id := "major",
    category := "Introduction",
    difficulty := Some(Basic),
    question := "What's your major or field of study?",
    kind := Select,
    options := Some(MajorOptions),
    placeholder := None,
    required := true,
    helperText := None
  )

  const YearOptions: seq<QuestionOption> := [
    QuestionOption("1st", "1st Year"),
    QuestionOption("2nd", "2nd Year"),
    QuestionOption("3rd", "3rd Year"),
    QuestionOption("final", "Final Year"),
    QuestionOption("graduated", "Recently Graduated")
  ]

  const YearQuestion: Question := Question(
    id := "year",
    category := "Introduction",
    difficulty := Some(Basic),
    question := "What year are you currently in?",
    kind := Select,
    options := Some(YearOptions),
    placeholder := None,
    required := true,
    helperText := None
  )

  const LanguagesOptions: seq<QuestionOption> := [
    QuestionOption("python", "Python"),
    QuestionOption("javascript", "JavaScript"),
    QuestionOption("typescript", "TypeScript"),
    QuestionOption("java", "Java"),
    QuestionOption("c", "C"),
    QuestionOption("cpp", "C++"),
    QuestionOption("csharp", "C#"),
    QuestionOption("go", "Go"),
    QuestionOption("rust", "Rust"),
    QuestionOption("kotlin", "Kotlin"),
    QuestionOption("swift", "Swift"),
    QuestionOption("ruby", "Ruby"),
    QuestionOption("php", "PHP"),
    QuestionOption("scala", "Scala"),
    QuestionOption("r", "R"),
    QuestionOption("matlab", "MATLAB"),
    QuestionOption("dart", "Dart"),
    QuestionOption("perl", "Perl"),
    QuestionOption("haskell", "Haskell"),
    QuestionOption("lua", "Lua"),
    QuestionOption("elixir", "Elixir"),
    QuestionOption("sql", "SQL"),
    QuestionOption("bash", "Bash / Shell"),
    QuestionOption("assembly", "Assembly"),
    QuestionOption("objective_c", "Objective-C"),
    QuestionOption("vhdl", "VHDL / Verilog"),
    QuestionOption("solidity", "Solidity"),
    QuestionOption("julia", "Julia"),
    QuestionOption("zig", "Zig"),
    QuestionOption("clojure", "Clojure"),
    QuestionOption("fortran", "Fortran"),
    QuestionOption("cobol", "COBOL"),
    QuestionOption("groovy", "Groovy"),
    QuestionOption("f_sharp", "F#"),
    QuestionOption("erlang", "Erlang")
  ]

  const LanguagesQuestion: Question := Question(
    id := "languages",
    category := "Technical Skills",
    difficulty := Some(Intermediate),
    question := "Which programming languages are you proficient in?",
    kind := MultiSelect,
    options := Some(LanguagesOptions),
    placeholder := None,
    required := true,
    helperText := Some("Select all languages you've worked with")
  )

  const FavoriteSubjectsOptions: seq<QuestionOption> := [
    QuestionOption("dsa", "Data Structures & Algorithms"),
    QuestionOption("ml", "Machine Learning / AI"),
    QuestionOption("dbms", "Database Management Systems"),
    QuestionOption("os", "Operating Systems"),
    QuestionOption("cn", "Computer Networks"),
    QuestionOption("oops", "Object-Oriented Programming"),
    QuestionOption("toc", "Theory of Computation"),
    QuestionOption("compiler", "Compiler Design"),
    QuestionOption("se", "Software Engineering"),
    QuestionOption("discrete_math", "Discrete Mathematics"),
    QuestionOption("probability", "Probability & Statistics"),
    QuestionOption("linear_algebra", "Linear Algebra"),
    QuestionOption("digital_electronics", "Digital Electronics"),
    QuestionOption("microprocessor", "Microprocessors & Microcontrollers"),
    QuestionOption("signals", "Signals & Systems"),
    QuestionOption("control_systems", "Control Systems"),
    QuestionOption("web_tech", "Web Technologies"),
    QuestionOption("cloud_computing", "Cloud Computing"),
    QuestionOption("cybersecurity", "Cybersecurity"),
    QuestionOption("embedded", "Embedded Systems"),
    QuestionOption("computer_graphics", "Computer Graphics"),
    QuestionOption("computer_architecture", "Computer Architecture"),
    QuestionOption("distributed_systems", "Distributed Systems"),
    QuestionOption("iot", "Internet of Things"),
    QuestionOption("data_mining", "Data Mining & Warehousing"),
    QuestionOption("image_processing", "Image Processing"),
    QuestionOption("nlp", "Natural Language Processing"),
    QuestionOption("robotics", "Robotics")
  ]

  const FavoriteSubjectsQuestion: Question := Question(
    id := "favorite_subjects",
    category := "Education",
    difficulty := Some(Intermediate),
    question := "Which B.Tech subjects have you enjoyed the most?",
    kind := MultiSelect,
    options := Some(FavoriteSubjectsOptions),
    placeholder := None,
    required := true,
    helperText := Some("Select your top 3-5 favorite subjects")
  )

  const ProficiencyOptions: seq<QuestionOption> := [
    QuestionOption("beginner", "Beginner — I can write simple programs"),
    QuestionOption("intermediate", "Intermediate — I've built projects independently"),
    QuestionOption("advanced", "Advanced — I'm comfortable with complex architectures"),
    QuestionOption("expert", "Expert — I've shipped production-grade software")
  ]

  const ProficiencyQuestion: Question := Question(
    id := "proficiency",
    category := "Technical Skills",
    difficulty := Some(Intermediate),
    question := "How would you rate your overall coding proficiency?",
    kind := Select,
    options := Some(ProficiencyOptions),
    placeholder := None,
    required := true,
    helperText := None
  )

  const ToolsOptions: seq<QuestionOption> := [
    QuestionOption("react", "React / Next.js"),
    QuestionOption("angular", "Angular"),
    QuestionOption("vue", "Vue.js"),
    QuestionOption("node", "Node.js / Express"),
    QuestionOption("django", "Django / Flask"),
    QuestionOption("spring", "Spring Boot"),
    QuestionOption("tensorflow", "TensorFlow / PyTorch"),
    QuestionOption("docker", "Docker / Kubernetes"),
    QuestionOption("aws", "AWS / GCP / Azure"),
    QuestionOption("git", "Git / GitHub"),
    QuestionOption("figma", "Figma / Design Tools"),
    QuestionOption("linux", "Linux"),
    QuestionOption("flutter", "Flutter / React Native"),
    QuestionOption("unity", "Unity / Unreal Engine"),
    QuestionOption("tableau", "Tableau / Power BI")
  ]

  const ToolsQuestion: Question := Question(
    id := "tools",
    category := "Technical Skills",
    difficulty := Some(Intermediate),
    question := "What tools & frameworks do you use regularly?",
    kind := MultiSelect,
    options := Some(ToolsOptions),
    placeholder := None,
    required := false,
    helperText := Some("Select all that apply")
  )

  const InterestsOptions: seq<QuestionOption> := [
    QuestionOption("ai_ml", "AI & Machine Learning"),
    QuestionOption("web_dev", "Web Development"),
    QuestionOption("mobile", "Mobile App Development"),
    QuestionOption("data", "Data Science & Analytics"),
    QuestionOption("security", "Cybersecurity"),
    QuestionOption("cloud", "Cloud & DevOps"),
    QuestionOption("iot", "IoT & Embedded"),
    QuestionOption("blockchain", "Blockchain / Web3"),
    QuestionOption("game", "Game Development"),
    QuestionOption("product", "Product Management"),
    QuestionOption("arvr", "AR / VR / Metaverse"),
    QuestionOption("quantum", "Quantum Computing")
  ]

  const InterestsQuestion: Question := Question(
    id := "interests",
    category := "Interests",
    difficulty := Some(Intermediate),
    question := "What areas of tech excite you the most?",
    kind := MultiSelect,
    options := Some(InterestsOptions),
    placeholder := None,
    required := true,
    helperText := Some("Select 2-4 that excite you most")
  )

  const WorkStyleOptions: seq<QuestionOption> := [
    QuestionOption("analytical", "Analytical — I love solving complex logical problems"),
    QuestionOption("creative", "Creative — I enjoy building beautiful, user-facing products"),
    QuestionOption("mixed", "Mixed — I like a balance of both"),
    QuestionOption("research", "Research — I love exploring new ideas and publishing findings")
  ]

  const WorkStyleQuestion: Question := Question(
    id := "work_style",
    category := "Work Preferences",
    difficulty := Some(Intermediate),
    question := "How would you describe your preferred work style?",
    kind := Select,
    options := Some(WorkStyleOptions),
    placeholder := None,
    required := true,
    helperText := None
  )

  const ProjectsQuestion: Question := Question(
    id := "projects",
    category := "Experience",
    difficulty := Some(Advanced),
    question := "Describe your most significant project(s). What problem did you solve and what was the technical architecture?",
    kind := Textarea,
    options := None,
    placeholder := Some("e.g., Built a recommendation system using Python and collaborative filtering with a Flask backend + React frontend, deployed on AWS EC2 with PostgreSQL..."),
    required := true,
    helperText := Some("Be detailed — mention the tech stack, scale, and impact")
  )

  const HackathonsQuestion: Question := Question(
    id := "hackathons",
    category := "Experience",
    difficulty := Some(Advanced),
    question := "Have you participated in hackathons, coding competitions, or open-source contributions?",
    kind := Textarea,
    options := None,
    placeholder := Some("e.g., Won 2nd place at college hackathon building a healthcare chatbot, contributed to scikit-learn, participated in Google Summer of Code..."),
    required := false,
    helperText := None
  )

  const WorkPaceOptions: seq<QuestionOption> := [
    QuestionOption("fast", "Fast-paced startup — Chaos, rapid iteration, high ownership"),
    QuestionOption("moderate", "Mid-size company — Balanced pace with clear goals"),
    QuestionOption("structured", "Large corporate — Methodical, well-planned, deep specialization"),
    QuestionOption("freelance", "Freelance / Remote — Independence and flexibility")
  ]

  const WorkPaceQuestion: Question := Question(
    id := "work_pace",
    category := "Work Preferences",
    difficulty := Some(Advanced),
    question := "What kind of environment do you thrive in?",
    kind := Select,
    options := Some(WorkPaceOptions),
    placeholder := None,
    required := true,
    helperText := None
  )

  const CollaborationOptions: seq<QuestionOption> := [
    QuestionOption("team", "Team — I thrive in collaborative environments"),
    QuestionOption("solo", "Solo — I do my best work independently"),
    QuestionOption("lead", "Lead — I prefer guiding a team"),
    QuestionOption("mixed", "Mixed — Depends on the task")
  ]

  const CollaborationQuestion: Question := Question(
    id := "collaboration",
    category := "Work Preferences",
    difficulty := Some(Advanced),
    question := "Do you prefer working in teams or solo?",
    kind := Select,
    options := Some(CollaborationOptions),
    placeholder := None,
    required := true,
    helperText := None
  )

  const SalaryImportanceOptions: seq<QuestionOption> := [
    QuestionOption("salary_first", "Salary first — I want to maximize earnings early"),
    QuestionOption("passion_first", "Passion first — I'll take less pay for meaningful work"),
    QuestionOption("stability_first", "Stability first — Predictable income and job security"),
    QuestionOption("balanced", "Balanced — A mix of all three")
  ]

  const SalaryImportanceQuestion: Question := Question(
    id := "salary_importance",
    category := "Career Goals",
    difficulty := Some(Advanced),
    question := "How do you prioritize salary vs. passion vs. stability?",
    kind := Select,
    options := Some(SalaryImportanceOptions),
    placeholder := None,
    required := true,
    helperText := None
  )

  const GrowthPriorityOptions: seq<QuestionOption> := [
    QuestionOption("technical", "Deep technical expert / Staff Engineer / Architect"),
    QuestionOption("leadership", "Engineering Manager / VP of Engineering"),
    QuestionOption("entrepreneurial", "Running my own startup or product"),
    QuestionOption("research", "Research scientist / Academic / PhD"),
    QuestionOption("consulting", "Independent consultant / Freelancer")
  ]

  const GrowthPriorityQuestion: Question := Question(
    id := "growth_priority",
    category := "Career Goals",
    difficulty := Some(Advanced),
    question := "Where do you see yourself in 5-7 years?",
    kind := Select,
    options := Some(GrowthPriorityOptions),
    placeholder := None,
    required := true,
    helperText := None
  )

  const ConstraintsQuestion: Question := Question(
    id := "constraints",
    category := "Reality Check",
    difficulty := Some(Advanced),
    question := "Are there any constraints or pressures influencing your career choice?",
    kind := Textarea,
    options := None,
    placeholder := Some("e.g., Family wants me to get a stable corporate job, prefer to stay in my home city, financial constraints, visa limitations..."),
    required := false,
    helperText := Some("Be honest — this helps us tailor recommendations realistically")
  )

  const FailureHandlingOptions: seq<QuestionOption> := [
    QuestionOption("resilient", "I bounce back fast — failure motivates me"),
    QuestionOption("reflective", "I reflect deeply and adjust my approach"),
    QuestionOption("struggle", "I struggle initially but eventually recover"),
    QuestionOption("avoid", "I try to minimize risk and avoid failure")
  ]

  const FailureHandlingQuestion: Question := Question(
    id := "failure_handling",
    category := "Mindset",
    difficulty := Some(Advanced),
    question := "How do you handle failure or rejection in your career journey?",
    kind := Select,
    options := Some(FailureHandlingOptions),
    placeholder := None,
    required := true,
    helperText := None
  )

  const PreConfidenceQuestion: Question := Question(
    id := "pre_confidence",
    category := "Self-Assessment",
    difficulty := Some(Advanced),
    question := "How confident are you about your career direction right now?",
    kind := Rating,
    options := None,
    placeholder := None,
    required := true,
    helperText := Some("1 = Completely lost, 10 = Crystal clear")
  )

  const ConfusionAreasQuestion: Question := Question(
    id := "confusion_areas",
    category := "Self-Assessment",
    difficulty := Some(Advanced),
    question := "What's the single biggest thing holding you back from feeling confident about your career path?",
    kind := Textarea,
    options := None,
    placeholder := Some("e.g., I can't decide between ML and web dev, I'm not sure if my skills are good enough for top companies, I don't know what the job market looks like for my interests..."),
    required := true,
    helperText := Some("Be specific — vague answers lead to vague recommendations")
  )

  /** The catalog, in the order the questionnaire walks it. */
  const Questions: seq<Question> := [
    NameQuestion, MajorQuestion, YearQuestion, LanguagesQuestion,
    FavoriteSubjectsQuestion, ProficiencyQuestion, ToolsQuestion, InterestsQuestion,
    WorkStyleQuestion, ProjectsQuestion, HackathonsQuestion, WorkPaceQuestion,
    CollaborationQuestion, SalaryImportanceQuestion, GrowthPriorityQuestion, ConstraintsQuestion,
    FailureHandlingQuestion, PreConfidenceQuestion, ConfusionAreasQuestion
  ]

  const MockMachineLearningEngineer: CareerRecommendation := CareerRecommendation(
    rank := 1,
    careerTitle := "Machine Learning Engineer",
    fitScore := 92,
    whyFits := "Your strong foundation in Python, hands-on ML projects, and genuine excitement for AI make this an exceptional match. Your analytical work style and preference for deep technical growth align perfectly with the daily demands of an ML Engineer role.",
    roleDescription := "Design, build, and deploy machine learning models to solve real-world business problems. Collaborate with data scientists and software engineers to productionize AI solutions at scale.",
    skillsYouHave := [
      "Python programming (Advanced)",
      "Machine Learning fundamentals",
      "Data Structures & Algorithms",
      "Project experience with real ML applications"
    ],
    skillsToDevelop := [
      "MLOps and deployment (Docker, Kubernetes)",
      "Cloud ML platforms (AWS SageMaker, GCP Vertex AI)",
      "Production ML frameworks (TensorFlow Serving, MLflow)",
      "System design for ML pipelines"
    ],
    careerOutlook := CareerOutlook(
      salaryEntry := "₹8-15 LPA",
      salaryExperienced := "₹20-45 LPA (3-5 years)",
      growthPotential := "Very High",
      workLifeBalance := "Moderate",
      jobAvailability := "High — Growing demand in Bangalore, Hyderabad, Pune"
    ),
    nextSteps := [
      "Build 2-3 end-to-end ML projects (training → deployment) and host on GitHub",
      "Learn Docker basics and deploy one ML model to a cloud platform",
      "Contribute to 1-2 open-source ML projects (Hugging Face, scikit-learn)",
      "Complete Andrew Ng's ML Specialization if not done already",
      "Apply for ML Engineer internships at AI startups or product companies",
      "Practice ML system design interview questions"
    ]
  )

  const MockFullStackDeveloper: CareerRecommendation := CareerRecommendation(
    rank := 2,
    careerTitle := "Full-Stack Developer",
    fitScore := 81,
    whyFits := "Your JavaScript skills and web development projects show real aptitude for building user-facing products. Your creative side combined with technical depth makes full-stack a strong fit — especially given the high job availability and family-friendly stability.",
    roleDescription := "Build both frontend interfaces and backend APIs for web applications. Own features end-to-end, from database design to pixel-perfect UI implementation.",
    skillsYouHave := [
      "JavaScript / TypeScript",
      "React framework experience",
      "Database fundamentals",
      "Git version control"
    ],
    skillsToDevelop := [
      "Backend frameworks (Node.js/Express or Django)",
      "Cloud deployment (AWS, Vercel, Railway)",
      "System design fundamentals",
      "Testing and CI/CD pipelines"
    ],
    careerOutlook := CareerOutlook(
      salaryEntry := "₹6-12 LPA",
      salaryExperienced := "₹18-35 LPA (3-5 years)",
      growthPotential := "High",
      workLifeBalance := "Good",
      jobAvailability := "Very High — Largest job market segment"
    ),
    nextSteps := [
      "Build a full-stack project with auth, database, and deployment",
      "Learn a backend framework deeply (Node.js or Django)",
      "Deploy a project to production using Vercel or AWS",
      "Contribute to open-source web projects",
      "Practice system design and DSA for interviews"
    ]
  )

  const MockDataScientist: CareerRecommendation := CareerRecommendation(
    rank := 3,
    careerTitle := "Data Scientist",
    fitScore := 76,
    whyFits := "Your interest in data, statistics background, and Python skills provide a solid foundation. Your analytical mindset and curiosity about patterns in data make this a natural fit, though you'd benefit from deeper statistical modeling experience.",
    roleDescription := "Extract insights from large datasets, build statistical models, and communicate findings to stakeholders. Bridge the gap between raw data and business decisions.",
    skillsYouHave := [
      "Python programming",
      "Statistical thinking",
      "SQL and database knowledge",
      "Data visualization basics"
    ],
    skillsToDevelop := [
      "Advanced statistics and probability",
      "Business domain knowledge",
      "Data storytelling and presentation",
      "Tools: Pandas, NumPy, Matplotlib, Tableau"
    ],
    careerOutlook := CareerOutlook(
      salaryEntry := "₹7-14 LPA",
      salaryExperienced := "₹18-35 LPA (3-5 years)",
      growthPotential := "High",
      workLifeBalance := "Good",
      jobAvailability := "High — Especially in fintech, e-commerce, healthcare"
    ),
    nextSteps := [
      "Complete a data science project using real-world datasets (Kaggle)",
      "Learn advanced pandas, NumPy, and visualization libraries",
      "Take a statistics course (Khan Academy or MIT OCW)",
      "Build a portfolio of 3-4 data analysis projects",
      "Practice SQL extensively — it's crucial for interviews"
    ]
  )

  const MockDevopsEngineer: CareerRecommendation := CareerRecommendation(
    rank := 4,
    careerTitle := "DevOps Engineer",
    fitScore := 68,
    whyFits := "Your Linux experience and interest in cloud computing show alignment. DevOps combines your analytical problem-solving skills with infrastructure automation — and offers excellent salary growth. However, your profile shows stronger alignment with development roles.",
    roleDescription := "Automate software delivery pipelines, manage cloud infrastructure, and ensure system reliability. Bridge development and operations teams for faster, safer deployments.",
    skillsYouHave := [
      "Linux fundamentals",
      "Basic scripting (Python/Bash)",
      "Git version control"
    ],
    skillsToDevelop := [
      "Docker & Kubernetes in depth",
      "CI/CD tools (Jenkins, GitHub Actions)",
      "Infrastructure as Code (Terraform, Ansible)",
      "Cloud platforms (AWS/GCP certifications)",
      "Monitoring tools (Prometheus, Grafana)"
    ],
    careerOutlook := CareerOutlook(
      salaryEntry := "₹6-12 LPA",
      salaryExperienced := "₹20-40 LPA (3-5 years)",
      growthPotential := "Very High",
      workLifeBalance := "Moderate",
      jobAvailability := "High — Critical role in every tech company"
    ),
    nextSteps := [
      "Set up a CI/CD pipeline for one of your projects",
      "Learn Docker thoroughly and containerize an application",
      "Get an AWS Cloud Practitioner certification",
      "Practice with Terraform for infrastructure automation",
      "Join DevOps communities (DevOps subreddit, local meetups)"
    ]
  )

  /** The result the results screen displays, whatever was answered. */
  const MockResults: AnalysisResult := AnalysisResult(
    recommendations := [MockMachineLearningEngineer, MockFullStackDeveloper, MockDataScientist, MockDevopsEngineer],
    summary := Summary(
      topRecommendation := "Machine Learning Engineer",
      confidenceLevel := "High",
      confidenceExplanation := "Your profile shows clear alignment with AI/ML careers. You have relevant project experience, strong Python skills, and a genuine passion for the field. Your analytical mindset and preference for deep technical work reinforce this direction. We're confident these recommendations reflect your strengths."
    )
  )

  // ---------------------------------------------------------------------------
  // Position tables
  //
  // For the longer lists, a lookup from a value (or id) back to its position.
  // When every entry's value leads back to its own position no value can occur
  // twice. Keying the lookup by length first keeps each step to the few
  // values of that length, which keeps these proofs cheap.

  /** The position of each question id in `Questions`; -1 for any other string. */
  function QuestionPosition(v: string): int {
    match |v|
    case 4 => if v == "name" then 0 else if v == "year" then 2 else -1
    case 5 => if v == "major" then 1 else if v == "tools" then 6 else -1
    case 8 => if v == "projects" then 9 else -1
    case 9 => if v == "languages" then 3 else if v == "interests" then 7 else if v == "work_pace" then 11 else -1
    case 10 => if v == "work_style" then 8 else if v == "hackathons" then 10 else -1
    case 11 => if v == "proficiency" then 5 else if v == "constraints" then 15 else -1
    case 13 => if v == "collaboration" then 12 else -1
    case 14 => if v == "pre_confidence" then 17 else -1
    case 15 => if v == "growth_priority" then 14 else if v == "confusion_areas" then 18 else -1
    case 16 => if v == "failure_handling" then 16 else -1
    case 17 => if v == "favorite_subjects" then 4 else if v == "salary_importance" then 13 else -1
    case _ => -1
  }

  /** The position of each major value in `MajorOptions`. */
  function MajorPosition(v: string): int {
    match |v|
    case 2 => if v == "cs" then 0 else if v == "it" then 1 else if v == "ee" then 3 else if v == "me" then 4 else if v == "ce" then 5 else -1
    case 3 => if v == "ece" then 2 else -1
    case 4 => if v == "chem" then 6 else if v == "aids" then 8 else -1
    case 5 => if v == "other" then 9 else -1
    case 7 => if v == "biotech" then 7 else -1
    case _ => -1
  }

  /** The position of each language value in `LanguagesOptions`. */
  function LanguagePosition(v: string): int {
    match |v|
    case 1 => if v == "c" then 4 else if v == "r" then 14 else -1
    case 2 => if v == "go" then 7 else -1
    case 3 => if v == "cpp" then 5 else if v == "php" then 12 else if v == "lua" then 19 else if v == "sql" then 21 else if v == "zig" then 28 else -1
    case 4 => if v == "java" then 3 else if v == "rust" then 8 else if v == "ruby" then 11 else if v == "dart" then 16 else if v == "perl" then 17 else if v == "bash" then 22 else if v == "vhdl" then 25 else -1
    case 5 => if v == "swift" then 10 else if v == "scala" then 13 else if v == "julia" then 27 else if v == "cobol" then 31 else -1
    case 6 => if v == "python" then 0 else if v == "csharp" then 6 else if v == "kotlin" then 9 else if v == "matlab" then 15 else if v == "elixir" then 20 else if v == "groovy" then 32 else if v == "erlang" then 34 else -1
    case 7 => if v == "haskell" then 18 else if v == "clojure" then 29 else if v == "fortran" then 30 else if v == "f_sharp" then 33 else -1
    case 8 => if v == "assembly" then 23 else if v == "solidity" then 26 else -1
    case 10 => if v == "javascript" then 1 else if v == "typescript" then 2 else -1
    case 11 => if v == "objective_c" then 24 else -1
    case _ => -1
  }

  /** The position of each subject value in `FavoriteSubjectsOptions`. */
  function SubjectPosition(v: string): int {
    match |v|
    case 2 => if v == "ml" then 1 else if v == "os" then 3 else if v == "cn" then 4 else if v == "se" then 8 else -1
    case 3 => if v == "dsa" then 0 else if v == "toc" then 6 else if v == "iot" then 23 else if v == "nlp" then 26 else -1
    case 4 => if v == "dbms" then 2 else if v == "oops" then 5 else -1
    case 7 => if v == "signals" then 14 else -1
    case 8 => if v == "compiler" then 7 else if v == "web_tech" then 16 else if v == "embedded" then 19 else if v == "robotics" then 27 else -1
    case 11 => if v == "probability" then 10 else if v == "data_mining" then 24 else -1
    case 13 => if v == "discrete_math" then 9 else if v == "cybersecurity" then 18 else -1
    case 14 => if v == "linear_algebra" then 11 else if v == "microprocessor" then 13 else -1
    case 15 => if v == "control_systems" then 15 else if v == "cloud_computing" then 17 else -1
    case 16 => if v == "image_processing" then 25 else -1
    case 17 => if v == "computer_graphics" then 20 else -1
    case 19 => if v == "digital_electronics" then 12 else if v == "distributed_systems" then 22 else -1
    case 21 => if v == "computer_architecture" then 21 else -1
    case _ => -1
  }

  /** The position of each tool value in `ToolsOptions`. */
  function ToolPosition(v: string): int {
    match |v|
    case 3 => if v == "vue" then 2 else if v == "aws" then 8 else if v == "git" then 9 else -1
    case 4 => if v == "node" then 3 else -1
    case 5 => if v == "react" then 0 else if v == "figma" then 10 else if v == "linux" then 11 else if v == "unity" then 13 else -1
    case 6 => if v == "django" then 4 else if v == "spring" then 5 else if v == "docker" then 7 else -1
    case 7 => if v == "angular" then 1 else if v == "flutter" then 12 else if v == "tableau" then 14 else -1
    case 10 => if v == "tensorflow" then 6 else -1
    case _ => -1
  }

  // ---------------------------------------------------------------------------
  // Facts about the two constants, established by evaluation

  lemma QuestionPositionsEarly()
    ensures forall i :: 0 <= i < 10 ==> QuestionPosition(Questions[i].id) == i
  {
  }

  lemma QuestionPositionsLate()
    ensures forall i :: 10 <= i < |Questions| ==> QuestionPosition(Questions[i].id) == i
  {
  }

  /** The catalog holds nineteen questions with pairwise distinct ids. */
  lemma CatalogIdsDistinct()
    ensures |Questions| == 19
    ensures DistinctIds(Questions)
  {
    QuestionPositionsEarly();
    QuestionPositionsLate();
  }

  /** Select and multi-select questions have options, the other kinds none. */
  lemma CatalogOptionsFitKind()
    ensures forall i :: 0 <= i < |Questions| ==> OptionsFitKind(Questions[i])
  {
  }

  lemma LanguagePositionsEarly()
    ensures forall i :: 0 <= i < 18 ==> LanguagePosition(LanguagesOptions[i].value) == i
  {
  }

  lemma LanguagePositionsLate()
    ensures forall i :: 18 <= i < |LanguagesOptions| ==> LanguagePosition(LanguagesOptions[i].value) == i
  {
  }

  /** The 35 language values are distinct. */
  lemma LanguageOptionsDistinct()
    ensures DistinctValues(LanguagesOptions)
  {
    LanguagePositionsEarly();
    LanguagePositionsLate();
  }

  lemma SubjectPositionsEarly()
    ensures forall i :: 0 <= i < 14 ==> SubjectPosition(FavoriteSubjectsOptions[i].value) == i
  {
  }

  lemma SubjectPositionsLate()
    ensures forall i :: 14 <= i < |FavoriteSubjectsOptions| ==> SubjectPosition(FavoriteSubjectsOptions[i].value) == i
  {
  }

  /** The 28 subject values are distinct. */
  lemma SubjectOptionsDistinct()
    ensures DistinctValues(FavoriteSubjectsOptions)
  {
    SubjectPositionsEarly();
    SubjectPositionsLate();
  }

  lemma ToolPositions()
    ensures forall i :: 0 <= i < |ToolsOptions| ==> ToolPosition(ToolsOptions[i].value) == i
  {
  }

  /** The 15 tool values are distinct. */
  lemma ToolOptionsDistinct()
    ensures DistinctValues(ToolsOptions)
  {
    ToolPositions();
  }

  /** The 12 interest values are distinct. */
  lemma InterestOptionsDistinct()
    ensures DistinctValues(InterestsOptions)
  {
  }

  lemma MajorPositions()
    ensures forall i :: 0 <= i < |MajorOptions| ==> MajorPosition(MajorOptions[i].value) == i
  {
  }

  /** The ten major values are distinct. */
  lemma MajorOptionsDistinct()
    ensures DistinctValues(MajorOptions)
  {
    MajorPositions();
  }

  /** The option values of the year, proficiency, work-style and work-pace questions are distinct. */
  lemma SelectOptionsDistinct()
    ensures DistinctValues(YearOptions)
    ensures DistinctValues(ProficiencyOptions)
    ensures DistinctValues(WorkStyleOptions)
    ensures DistinctValues(WorkPaceOptions)
  {
  }

  /** The option values of the collaboration, salary, growth and failure-handling questions are distinct. */
  lemma PriorityOptionsDistinct()
    ensures DistinctValues(CollaborationOptions)
    ensures DistinctValues(SalaryImportanceOptions)
    ensures DistinctValues(GrowthPriorityOptions)
    ensures DistinctValues(FailureHandlingOptions)
  {
  }

  /** Within every question the option values are distinct. */
  lemma CatalogOptionValuesDistinct()
    ensures forall i :: 0 <= i < |Questions| && Questions[i].options.Some? ==>
      DistinctValues(Questions[i].options.value)
  {
    LanguageOptionsDistinct();
    SubjectOptionsDistinct();
    ToolOptionsDistinct();
    InterestOptionsDistinct();
    MajorOptionsDistinct();
    SelectOptionsDistinct();
    PriorityOptionsDistinct();
  }

  /** Exactly `tools`, `hackathons` and `constraints` may be skipped; every other question is required. */
  lemma CatalogOptionalQuestions()
    ensures forall i :: 0 <= i < |Questions| ==>
      (!Questions[i].required <==> Questions[i].id in {"tools", "hackathons", "constraints"})
  {
  }

  /** `pre_confidence` is the only rating question. */
  lemma CatalogRatingQuestion()
    ensures forall i :: 0 <= i < |Questions| ==>
      (Questions[i].kind == Rating <==> Questions[i].id == "pre_confidence")
  {
  }

  /** The displayed result: four recommendations ranked 1..4, scores falling inside 60..95. */
  lemma MockResultsShape()
    ensures |MockResults.recommendations| == 4
    ensures RankedInOrder(MockResults.recommendations)
    ensures FitScoresDecreasing(MockResults.recommendations)
    ensures FitScoresInBand(MockResults.recommendations)
  {
  }

  /** The summary names the rank-1 career and carries a declared confidence level. */
  lemma MockResultsSummary()
    ensures MockResults.recommendations != []
    ensures MockResults.recommendations[0].rank == 1
    ensures MockResults.summary.topRecommendation == MockResults.recommendations[0].careerTitle
    ensures IsConfidenceLevel(MockResults.summary.confidenceLevel)
  {
  }
}
