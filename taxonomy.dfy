/** The static taxonomy: token -> (label, category) tables, the manifest
    file names and the extension -> language map. The two token tables
    are kept as ordered lists because the classifier's tie-breaking
    depends on their order (Python dictionaries iterate in insertion
    order). */
module Taxonomy {

  /** A skill: a (label, category) pair. */
  datatype Skill = Skill(name: string, category: string)

  /** One row of a token table. */
  datatype Entry = Entry(key: string, skill: Skill)

  /** The keys of a table, in table order. */
  function Keys(table: seq<Entry>): (r: seq<string>)
    ensures |r| == |table|
    ensures forall i :: 0 <= i < |table| ==> r[i] == table[i].key
  {
    seq(|table|, i requires 0 <= i < |table| => table[i].key)
  }


  /** The package-token table (`PACKAGE_KEYWORD_MAP`), in source order,
      written in blocks of eight rows. */
  const PackageTable: seq<Entry> :=
    PackageRows0 + PackageRows1 + PackageRows2 + PackageRows3 + PackageRows4 + PackageRows5 + PackageRows6 + PackageRows7 + PackageRows8

  const PackageRows0: seq<Entry> := [
    Entry("boto3", Skill("AWS (boto3)", "Cloud")),
    Entry("aws", Skill("AWS", "Cloud")),
    Entry("aws-sdk", Skill("AWS SDK (Node.js)", "Cloud")),
    Entry("azure", Skill("Azure", "Cloud")),
    Entry("google-cloud", Skill("Google Cloud", "Cloud")),
    Entry("pulumi", Skill("Pulumi", "Cloud / IaC")),
    Entry("terraform", Skill("Terraform", "Cloud / IaC")),
    Entry("kubernetes", Skill("Kubernetes", "Containers / Orchestration"))
  ]

  const PackageRows1: seq<Entry> := [
    Entry("helm", Skill("Helm", "Containers / Orchestration")),
    Entry("flask", Skill("Flask", "Web & APIs")),
    Entry("fastapi", Skill("FastAPI", "Web & APIs")),
    Entry("django", Skill("Django", "Web & APIs")),
    Entry("express", Skill("Express.js", "Web & APIs")),
    Entry("nestjs", Skill("NestJS", "Web & APIs")),
    Entry("spring", Skill("Spring Framework", "Web & APIs")),
    Entry("springboot", Skill("Spring Boot", "Web & APIs"))
  ]

  const PackageRows2: seq<Entry> := [
    Entry("grpc", Skill("gRPC", "Web & APIs")),
    Entry("react", Skill("React", "Frontend")),
    Entry("react-dom", Skill("React", "Frontend")),
    Entry("next", Skill("Next.js", "Frontend")),
    Entry("vue", Skill("Vue.js", "Frontend")),
    Entry("angular", Skill("Angular", "Frontend")),
    Entry("svelte", Skill("Svelte", "Frontend")),
    Entry("axios", Skill("axios (HTTP client)", "Frontend"))
  ]

  const PackageRows3: seq<Entry> := [
    Entry("redux", Skill("Redux", "Frontend")),
    Entry("tailwind", Skill("Tailwind CSS", "Frontend")),
    Entry("bootstrap", Skill("Bootstrap", "Frontend")),
    Entry("numpy", Skill("NumPy", "Data & Analysis")),
    Entry("pandas", Skill("Pandas", "Data & Analysis")),
    Entry("scipy", Skill("SciPy", "Data & Analysis")),
    Entry("sklearn", Skill("scikit-learn", "ML/AI")),
    Entry("xgboost", Skill("XGBoost", "ML/AI"))
  ]

  const PackageRows4: seq<Entry> := [
    Entry("lightgbm", Skill("LightGBM", "ML/AI")),
    Entry("tensorflow", Skill("TensorFlow", "ML/AI")),
    Entry("torch", Skill("PyTorch", "ML/AI")),
    Entry("keras", Skill("Keras", "ML/AI")),
    Entry("opencv", Skill("OpenCV", "Computer Vision")),
    Entry("transformers", Skill("Hugging Face Transformers", "ML/AI")),
    Entry("sqlalchemy", Skill("SQLAlchemy", "Databases")),
    Entry("psycopg2", Skill("PostgreSQL", "Databases"))
  ]

  const PackageRows5: seq<Entry> := [
    Entry("mysql", Skill("MySQL", "Databases")),
    Entry("pymongo", Skill("MongoDB", "Databases")),
    Entry("redis", Skill("Redis", "Databases")),
    Entry("elasticsearch", Skill("Elasticsearch", "Databases / Search")),
    Entry("kafka", Skill("Apache Kafka", "Streaming")),
    Entry("pulsar", Skill("Apache Pulsar", "Streaming")),
    Entry("rabbitmq", Skill("RabbitMQ", "Messaging")),
    Entry("pytest", Skill("pytest", "Testing"))
  ]

  const PackageRows6: seq<Entry> := [
    Entry("unittest", Skill("unittest", "Testing")),
    Entry("jest", Skill("Jest", "Testing")),
    Entry("mocha", Skill("Mocha", "Testing")),
    Entry("cypress", Skill("Cypress", "Testing")),
    Entry("prometheus", Skill("Prometheus", "Observability")),
    Entry("grafana", Skill("Grafana", "Observability")),
    Entry("opentelemetry", Skill("OpenTelemetry", "Observability")),
    Entry("jwt", Skill("JWT Authentication", "Security"))
  ]

  const PackageRows7: seq<Entry> := [
    Entry("oauth", Skill("OAuth", "Security")),
    Entry("bcrypt", Skill("bcrypt", "Security")),
    Entry("tkinter", Skill("Tkinter", "GUI / Desktop")),
    Entry("pyqt5", Skill("PyQt5", "GUI / Desktop")),
    Entry("pyqt", Skill("PyQt", "GUI / Desktop")),
    Entry("pyside2", Skill("PySide2", "GUI / Desktop")),
    Entry("pyside6", Skill("PySide6", "GUI / Desktop")),
    Entry("wx", Skill("wxPython", "GUI / Desktop"))
  ]

  const PackageRows8: seq<Entry> := [
    Entry("kivy", Skill("Kivy", "GUI / Desktop"))
  ]

  /** The free-text keyword table (`KEYWORD_MAP`), in source order,
      written in blocks of eight rows. */
  const KeywordTable: seq<Entry> :=
    KeywordRows0 + KeywordRows1 + KeywordRows2 + KeywordRows3

  const KeywordRows0: seq<Entry> := [
    Entry(".github/workflows", Skill("GitHub Actions (CI/CD)", "CI/CD")),
    Entry("gitlab-ci", Skill("GitLab CI", "CI/CD")),
    Entry("jenkins", Skill("Jenkins", "CI/CD")),
    Entry("circleci", Skill("CircleCI", "CI/CD")),
    Entry("azure-pipelines", Skill("Azure Pipelines", "CI/CD")),
    Entry("terraform", Skill("Terraform", "Cloud / IaC")),
    Entry("cloudformation", Skill("AWS CloudFormation", "Cloud / IaC")),
    Entry("pulumi", Skill("Pulumi", "Cloud / IaC"))
  ]

  const KeywordRows1: seq<Entry> := [
    Entry("kubernetes", Skill("Kubernetes", "Containers / Orchestration")),
    Entry("k8s", Skill("Kubernetes", "Containers / Orchestration")),
    Entry("helm", Skill("Helm", "Containers / Orchestration")),
    Entry("cuda", Skill("CUDA / NVIDIA (GPU)", "Performance / GPU")),
    Entry("nvidia", Skill("NVIDIA / CUDA (GPU)", "Performance / GPU")),
    Entry("openmp", Skill("OpenMP", "Performance")),
    Entry("mpi", Skill("MPI", "Performance")),
    Entry("spark", Skill("Apache Spark", "Data Engineering"))
  ]

  const KeywordRows2: seq<Entry> := [
    Entry("hadoop", Skill("Hadoop", "Data Engineering")),
    Entry("airflow", Skill("Apache Airflow", "Data Engineering")),
    Entry("dbt", Skill("dbt", "Data Engineering")),
    Entry("oauth", Skill("OAuth", "Security")),
    Entry("openid", Skill("OpenID Connect", "Security")),
    Entry("saml", Skill("SAML", "Security")),
    Entry("tkinter", Skill("Tkinter", "GUI / Desktop")),
    Entry("pyqt5", Skill("PyQt5", "GUI / Desktop"))
  ]

  const KeywordRows3: seq<Entry> := [
    Entry("pyside", Skill("PySide", "GUI / Desktop")),
    Entry("wxpython", Skill("wxPython", "GUI / Desktop")),
    Entry("kivy", Skill("Kivy", "GUI / Desktop"))
  ]

  /** Recognised dependency-manifest file names, lower case (`MANIFEST_FILES`). */
  const ManifestFiles: set<string> := {
    "requirements.txt", "requirements-dev.txt", "environment.yml", "environment.yaml",
    "pyproject.toml", "setup.py", "setup.cfg", "poetry.lock",
    "package.json", "package-lock.json", "yarn.lock", "pnpm-lock.yaml",
    "pom.xml", "build.gradle", "build.gradle.kts", "settings.gradle",
    "go.mod", "go.sum", "cargo.toml", "cargo.lock",
    "gemfile", "gemfile.lock", "csproj", "fsproj",
    "packages.config", "composer.json", "composer.lock", "podfile",
    "podfile.lock"
  }

  /** File extension (lower case, with its dot) -> language label (`EXT_LANG_MAP`). */
  const ExtLanguages: map<string, string> := map[
    ".py" := "Python",
    ".ipynb" := "Jupyter Notebook",
    ".java" := "Java",
    ".js" := "JavaScript",
    ".ts" := "TypeScript",
    ".jsx" := "JavaScript (React)",
    ".tsx" := "TypeScript (React)",
    ".c" := "C",
    ".h" := "C/C++ Header",
    ".cpp" := "C++",
    ".cc" := "C++",
    ".cxx" := "C++",
    ".rs" := "Rust",
    ".go" := "Go",
    ".swift" := "Swift",
    ".kt" := "Kotlin",
    ".m" := "Objective-C",
    ".mm" := "Objective-C++",
    ".scala" := "Scala",
    ".html" := "HTML",
    ".css" := "CSS",
    ".scss" := "SCSS",
    ".yaml" := "YAML",
    ".yml" := "YAML",
    ".json" := "JSON",
    ".toml" := "TOML",
    ".tf" := "Terraform",
    ".md" := "Markdown",
    ".sh" := "Shell"
  ]
}
