/** The bash script generator (backend/utils/script_generator.py): a header,
    a section chosen by the registry language of the framework, and a
    trailer, joined in that order.  Generation fails with the `ValueError`
    message for a framework the registry does not know, and the deployment
    type argument is accepted but never read. */
module ScriptGenerator {
  import opened Wrappers
  import opened Text
  import opened Config
  import Validators

  /** The first two lines of every generated script. */
  const Shebang: string := "#!/bin/bash\nset -e\n"

  const Rule: string := "echo \"================================================\"\n"

  /** `str(port)` as it is substituted into the script text. */
  function PortText(port: nat): string {
    NatToString(port)
  }

  // ---------------------------------------------------------------------
  // systemd units
  // ---------------------------------------------------------------------

  function UnitHead(description: string): string {
    "cat > /etc/systemd/system/app.service << EOF\n[Unit]\nDescription=" + description +
    "\nAfter=network.target\n\n[Service]\nUser=root\nWorkingDirectory=/opt/app\n"
  }

  function ExecStartLine(command: string): string {
    "ExecStart=" + command + "\n"
  }

  const UnitTail: string :=
    "\n[Install]\nWantedBy=multi-user.target\nEOF\n\nsystemctl daemon-reload\nsystemctl enable app\nsystemctl start app\n"

  /** A systemd unit named `app` written with a here-document, then enabled
      and started; `environment` is either empty or one `Environment=` line.
      The unit holds that line and the `ExecStart=` line of its command. */
  function SystemdService(description: string, environment: string, command: string): (u: string)
    ensures Contains(u, environment) && Contains(u, ExecStartLine(command))
  {
    var parts := [UnitHead(description), environment, ExecStartLine(command), UnitTail];
    ConcatContains(parts, 1);
    ConcatContains(parts, 2);
    Concat(parts)
  }

  /** `base`, a non-empty introduction and then a systemd service: the
      result extends `base` and holds the service's environment and command
      lines. */
  function ServiceSection(base: string, intro: string, description: string, environment: string,
                          command: string): (r: string)
    requires |intro| > 0
    ensures StartsWith(r, base) && |r| > |base|
    ensures Contains(r, ExecStartLine(command)) && Contains(r, environment)
  {
    var service := SystemdService(description, environment, command);
    var parts := [base, intro, service];
    ConcatStartsWith(parts);
    ConcatExtends(parts);
    ConcatContains(parts, 2);
    ContainsTransitive(Concat(parts), service, ExecStartLine(command));
    ContainsTransitive(Concat(parts), service, environment);
    Concat(parts)
  }

  // ---------------------------------------------------------------------
  // Install script
  // ---------------------------------------------------------------------

  function InstallBanner(framework: string): string {
    "echo \"🔧 Installation du framework: " + framework + "\"\n"
  }

  const BaseUtilities: string :=
    Rule + "\n# Mise à jour du système\napt-get update\napt-get upgrade -y\n\n" +
    "# Utilitaires de base\napt-get install -y curl wget git nano vim htop net-tools\n\n"

  /** The common header of the install script, naming the framework as the
      caller spelled it. */
  function InstallHeader(framework: string): (h: string)
    ensures StartsWith(h, Shebang)
    ensures Contains(h, InstallBanner(framework))
  {
    var parts := [Shebang, "\n", InstallBanner(framework), BaseUtilities];
    ConcatStartsWith(parts);
    ConcatContains(parts, 2);
    Concat(parts)
  }

  const PythonToolchain: string :=
    "\n# Installation Python et pip\napt-get install -y python3 python3-pip python3-venv\n\n" +
    "# Outils Python\npip3 install --upgrade pip setuptools wheel\n\n"
  const DjangoPackages: string := "\n# Django\npip3 install django gunicorn psycopg2-binary\n\n"
  const FlaskPackages: string := "\n# Flask\npip3 install flask gunicorn\n\n"
  const FastapiPackages: string := "\n# FastAPI\npip3 install fastapi uvicorn[standard]\n\n"

  /** `generate_python_install`: the Python toolchain, followed by the
      packages of django, flask or fastapi when the name is exactly that
      key; any other spelling gets the toolchain alone. */
  function PythonInstall(framework: string): (r: string)
    ensures StartsWith(r, PythonToolchain)
    ensures framework == "django" ==> EndsWith(r, DjangoPackages)
    ensures framework == "flask" ==> EndsWith(r, FlaskPackages)
    ensures framework == "fastapi" ==> EndsWith(r, FastapiPackages)
    ensures r == PythonToolchain <==> framework != "django" && framework != "flask" && framework != "fastapi"
  {
    var extra :=
      if framework == "django" then DjangoPackages
      else if framework == "flask" then FlaskPackages
      else if framework == "fastapi" then FastapiPackages
      else "";
    AfterPrefix(PythonToolchain, extra);
    assert |PythonToolchain + extra| == |PythonToolchain| + |extra|;
    assert (PythonToolchain + extra)[|PythonToolchain|..] == extra;
    PythonToolchain + extra
  }

  const NodeToolchain: string :=
    "\n# Installation Node.js (LTS)\ncurl -fsSL https://deb.nodesource.com/setup_20.x | bash -\n" +
    "apt-get install -y nodejs\n\n# Mise à jour npm\nnpm install -g npm@latest\n\n"
  const YarnTool: string := "\n# Outils de build\nnpm install -g yarn\n\n"

  /** `generate_javascript_install`: Node.js, plus yarn exactly for react,
      vue and nextjs. */
  function JavascriptInstall(framework: string): (r: string)
    ensures StartsWith(r, NodeToolchain)
    ensures framework in ["react", "vue", "nextjs"] ==> r == NodeToolchain + YarnTool
    ensures framework !in ["react", "vue", "nextjs"] ==> r == NodeToolchain
  {
    AfterPrefix(NodeToolchain, YarnTool);
    if framework in ["react", "vue", "nextjs"] then NodeToolchain + YarnTool else NodeToolchain
  }

  const PhpToolchain: string :=
    "\n# Installation PHP et extensions\napt-get install -y php8.1 php8.1-cli php8.1-fpm php8.1-mysql \\\n" +
    "    php8.1-xml php8.1-mbstring php8.1-curl php8.1-zip php8.1-gd\n\n" +
    "# Composer\ncurl -sS https://getcomposer.org/installer | php\nmv composer.phar /usr/local/bin/composer\n" +
    "chmod +x /usr/local/bin/composer\n\n"
  const LaravelInstaller: string := "\n# Laravel\ncomposer global require laravel/installer\n\n"

  /** `generate_php_install`: PHP and Composer, plus the Laravel installer
      exactly for `laravel`. */
  function PhpInstall(framework: string): (r: string)
    ensures StartsWith(r, PhpToolchain)
    ensures framework == "laravel" ==> r == PhpToolchain + LaravelInstaller
    ensures framework != "laravel" ==> r == PhpToolchain
  {
    AfterPrefix(PhpToolchain, LaravelInstaller);
    if framework == "laravel" then PhpToolchain + LaravelInstaller else PhpToolchain
  }

  /** `generate_java_install`: the same JDK and Maven section for every
      Java framework. */
  const JavaInstall: string :=
    "\n# Installation Java 17\napt-get install -y openjdk-17-jdk maven\n\n" +
    "# Variables d'environnement\necho 'export JAVA_HOME=/usr/lib/jvm/java-17-openjdk-amd64' >> /etc/profile\n" +
    "echo 'export PATH=$PATH:$JAVA_HOME/bin' >> /etc/profile\n\n"

  /** The install section of a language. */
  function LanguageInstall(language: Language, framework: string): string {
    match language
    case Python => PythonInstall(framework)
    case Javascript => JavascriptInstall(framework)
    case Php => PhpInstall(framework)
    case Java => JavaInstall
  }

  function UfwAllow(port: nat): string {
    "ufw allow " + PortText(port) + "/tcp\n"
  }

  const FirewallIntro: string := "\n# Configuration du firewall\napt-get install -y ufw\n"
  const UfwAllowSsh: string := "ufw allow 22/tcp\n"
  const UfwEnable: string := "ufw --force enable\n\n"
  const InstallDone: string := "echo \"✅ Installation terminée!\"\n"

  /** The firewall trailer: opens the application port and SSH, then
      announces the end of the installation. */
  function FirewallTrailer(port: nat): (t: string)
    ensures Contains(t, UfwAllow(port)) && Contains(t, UfwAllowSsh)
    ensures EndsWith(t, InstallDone)
  {
    var parts := [FirewallIntro, UfwAllow(port), UfwAllowSsh, UfwEnable, InstallDone];
    ConcatContains(parts, 1);
    ConcatContains(parts, 2);
    ConcatEndsWith(parts);
    Concat(parts)
  }

  /** `generate_install_script`: fails with the registry's error message
      for an unknown framework; otherwise the script starts with the
      shebang, names the framework, holds the install section of the
      framework's registry language, opens the registry port and SSH, and
      ends with the completion line. */
  function GenerateInstallScript(framework: string, deploymentType: string): (r: Result<string, string>)
    ensures r.Failure? <==> !IsFrameworkSupported(framework)
    ensures r.Failure? ==> r.error == Validators.UnsupportedFrameworkMessage(framework)
    ensures r.Success? ==>
              var info := SupportedFrameworks[Lower(framework)];
              && StartsWith(r.value, Shebang)
              && Contains(r.value, InstallBanner(framework))
              && Contains(r.value, LanguageInstall(info.language, framework))
              && Contains(r.value, UfwAllow(info.port))
              && Contains(r.value, UfwAllowSsh)
              && EndsWith(r.value, InstallDone)
  {
    match GetFrameworkInfo(framework)
    case None => Failure(Validators.UnsupportedFrameworkMessage(framework))
    case Some(info) =>
      var header := InstallHeader(framework);
      var trailer := FirewallTrailer(info.port);
      var parts := [header, LanguageInstall(info.language, framework), trailer];
      var script := Concat(parts);
      ConcatStartsWith(parts);
      StartsWithTransitive(script, header, Shebang);
      ConcatContains(parts, 0);
      ContainsTransitive(script, header, InstallBanner(framework));
      ConcatContains(parts, 1);
      ConcatContains(parts, 2);
      ContainsTransitive(script, trailer, UfwAllow(info.port));
      ContainsTransitive(script, trailer, UfwAllowSsh);
      ConcatEndsWith(parts);
      EndsWithTransitive(script, trailer, InstallDone);
      Success(script)
  }

  // ---------------------------------------------------------------------
  // Deploy script
  // ---------------------------------------------------------------------

  function CloneLine(githubUrl: string): string {
    "git clone " + githubUrl + " app\n"
  }

  function PortLine(port: nat): string {
    "echo \"Port: " + PortText(port) + "\"\n"
  }

  function DeployBanner(framework: string, githubUrl: string): string {
    "\necho \"🚀 Déploiement de l'application\"\n" + Rule +
    "echo \"Framework: " + framework + "\"\necho \"Source: " + githubUrl + "\"\n"
  }

  const WorkDirectory: string :=
    "echo \"\"\n\n# Dossier de travail\ncd /opt\nrm -rf app\n\n# Clone du dépôt\necho \"📥 Clone du dépôt...\"\n"

  /** The common header of the deploy script: announces the framework, the
      source and the port, then clones the repository into /opt/app. */
  function DeployHeader(framework: string, githubUrl: string, port: nat): (h: string)
    ensures StartsWith(h, Shebang)
    ensures Contains(h, CloneLine(githubUrl))
    ensures Contains(h, PortLine(port))
  {
    var parts := [Shebang, DeployBanner(framework, githubUrl), PortLine(port), WorkDirectory,
                  CloneLine(githubUrl), "cd app\n\n"];
    ConcatStartsWith(parts);
    ConcatContains(parts, 2);
    ConcatContains(parts, 4);
    Concat(parts)
  }

  function ReadyLine(port: nat): string {
    "echo \"🌐 Application accessible sur le port " + PortText(port) + "\"\n"
  }

  /** The trailer of the deploy script, whose last line announces the port. */
  function DeployTrailer(port: nat): (t: string)
    ensures EndsWith(t, ReadyLine(port))
  {
    var parts := ["\necho \"✅ Déploiement terminé!\"\n", ReadyLine(port)];
    ConcatEndsWith(parts);
    Concat(parts)
  }

  const VenvPath: string := "Environment=\"PATH=/opt/app/venv/bin\"\n"

  function PortEnvironment(port: nat): string {
    "Environment=\"PORT=" + PortText(port) + "\"\n"
  }

  const PythonDependencies: string :=
    "\n# Environnement virtuel\npython3 -m venv venv\nsource venv/bin/activate\n\n" +
    "# Installation des dépendances\nif [ -f requirements.txt ]; then\n    pip install -r requirements.txt\nfi\n\n"

  const DjangoIntro: string :=
    "\n# Django\npython manage.py migrate\npython manage.py collectstatic --noinput\n\n# Gunicorn service\n"
  const FlaskIntro: string := "\n# Flask\n"
  const FastapiIntro: string := "\n# FastAPI\n"

  function GunicornCommand(port: nat, app: string): string {
    "/opt/app/venv/bin/gunicorn --bind 0.0.0.0:" + PortText(port) + " --workers 3 " + app
  }

  function UvicornCommand(port: nat): string {
    "/opt/app/venv/bin/uvicorn main:app --host 0.0.0.0 --port " + PortText(port)
  }

  /** `generate_python_deploy`: a virtual environment with the project's
      requirements, then a systemd service for django (gunicorn on
      `wsgi:application`, after migrate and collectstatic), flask (gunicorn
      on `app:app`) or fastapi (uvicorn), matched on the exact key; any
      other spelling gets no service. */
  function PythonDeploy(framework: string, port: nat): (r: string)
    ensures StartsWith(r, PythonDependencies)
    ensures framework == "django" ==> Contains(r, ExecStartLine(GunicornCommand(port, "wsgi:application")))
    ensures framework == "flask" ==> Contains(r, ExecStartLine(GunicornCommand(port, "app:app")))
    ensures framework == "fastapi" ==> Contains(r, ExecStartLine(UvicornCommand(port)))
    ensures framework == "django" || framework == "flask" || framework == "fastapi" ==> |r| > |PythonDependencies|
    ensures framework != "django" && framework != "flask" && framework != "fastapi" ==> r == PythonDependencies
  {
    if framework == "django" then
      ServiceSection(PythonDependencies, DjangoIntro, "Django Application", VenvPath,
        GunicornCommand(port, "wsgi:application"))
    else if framework == "flask" then
      ServiceSection(PythonDependencies, FlaskIntro, "Flask Application", VenvPath, GunicornCommand(port, "app:app"))
    else if framework == "fastapi" then
      ServiceSection(PythonDependencies, FastapiIntro, "FastAPI Application", VenvPath, UvicornCommand(port))
    else
      StartsWithItself(PythonDependencies);
      PythonDependencies
  }

  const NpmDependencies: string := "\n# Installation des dépendances\nnpm install\n\n"
  const StaticBuild: string := "\n# Build de production\nnpm run build\n\n# Serveur statique\nnpm install -g serve\n"
  const NextBuild: string := "\n# Build Next.js\nnpm run build\n\n# Service Next.js\n"
  const NodeIntro: string := "\n# Service Node.js\n"

  function ServeCommand(port: nat): string {
    "/usr/bin/serve -s build -l " + PortText(port)
  }

  const NpmStart: string := "/usr/bin/npm start"
  const NodeServer: string := "/usr/bin/node server.js"

  /** `generate_javascript_deploy`: react and vue are built and served as
      static files with `serve -s build`, nextjs is built and run with
      `npm start`, and every other framework name (nodejs, express, or any
      other spelling) runs `node server.js`; the last two receive the port
      through the environment. */
  function JavascriptDeploy(framework: string, port: nat): (r: string)
    ensures StartsWith(r, NpmDependencies)
    ensures framework in ["react", "vue"] ==> Contains(r, ExecStartLine(ServeCommand(port)))
    ensures framework == "nextjs" ==> Contains(r, ExecStartLine(NpmStart)) && Contains(r, PortEnvironment(port))
    ensures framework !in ["react", "vue", "nextjs"] ==>
              Contains(r, ExecStartLine(NodeServer)) && Contains(r, PortEnvironment(port))
  {
    if framework in ["react", "vue"] then
      ServiceSection(NpmDependencies, StaticBuild, "Static Web Application", "", ServeCommand(port))
    else if framework == "nextjs" then
      ServiceSection(NpmDependencies, NextBuild, "Next.js Application", PortEnvironment(port), NpmStart)
    else
      ServiceSection(NpmDependencies, NodeIntro, "Node.js Application", PortEnvironment(port), NodeServer)
  }

  function NginxListen(port: nat): string {
    "    listen " + PortText(port) + ";\n"
  }

  const LaravelSetup: string :=
    "\n# Installation des dépendances\ncomposer install --no-dev --optimize-autoloader\n\n" +
    "# Configuration\ncp .env.example .env\nphp artisan key:generate\nphp artisan migrate --force\n\n" +
    "# Permissions\nchown -R www-data:www-data storage bootstrap/cache\n\n" +
    "# PHP-FPM et Nginx\napt-get install -y nginx\n\n" +
    "cat > /etc/nginx/sites-available/app << EOF\nserver {\n"

  const NginxSite: string :=
    "    root /opt/app/public;\n    index index.php;\n\n" +
    "    location / {\n        try_files \\$uri \\$uri/ /index.php?\\$query_string;\n    }\n\n" +
    "    location ~ \\.php$ {\n        fastcgi_pass unix:/var/run/php/php8.1-fpm.sock;\n" +
    "        fastcgi_index index.php;\n" +
    "        fastcgi_param SCRIPT_FILENAME \\$document_root\\$fastcgi_script_name;\n" +
    "        include fastcgi_params;\n    }\n}\nEOF\n\n" +
    "ln -sf /etc/nginx/sites-available/app /etc/nginx/sites-enabled/\nrm -f /etc/nginx/sites-enabled/default\n" +
    "systemctl restart nginx\nsystemctl restart php8.1-fpm\n"

  /** `generate_php_deploy`: for `laravel`, Composer, artisan and an nginx
      site listening on the port; for every other name, nothing. */
  function PhpDeploy(framework: string, port: nat): (r: string)
    ensures r == "" <==> framework != "laravel"
    ensures framework == "laravel" ==> Contains(r, NginxListen(port))
  {
    if framework == "laravel" then
      var parts := [LaravelSetup, NginxListen(port), NginxSite];
      ConcatContains(parts, 1);
      ConcatExtends(parts);
      Concat(parts)
    else ""
  }

  const MavenBuild: string := "\n# Build Maven\nmvn clean package -DskipTests\n\n# Service Spring Boot\n"

  function SpringBootCommand(port: nat): string {
    "/usr/bin/java -jar target/*.jar --server.port=" + PortText(port)
  }

  /** `generate_java_deploy`: for `springboot`, a Maven build and a service
      running the jar on the port; for every other name, nothing. */
  function JavaDeploy(framework: string, port: nat): (r: string)
    ensures r == "" <==> framework != "springboot"
    ensures framework == "springboot" ==> Contains(r, ExecStartLine(SpringBootCommand(port)))
  {
    if framework == "springboot" then
      ServiceSection("", MavenBuild, "Spring Boot Application", "", SpringBootCommand(port))
    else ""
  }

  /** The deploy section of a language. */
  function LanguageDeploy(language: Language, framework: string, port: nat): string {
    match language
    case Python => PythonDeploy(framework, port)
    case Javascript => JavascriptDeploy(framework, port)
    case Php => PhpDeploy(framework, port)
    case Java => JavaDeploy(framework, port)
  }

  /** `generate_deploy_script`: fails with the registry's error message for
      an unknown framework; otherwise the script starts with the shebang,
      announces the registry port, clones the given URL into `app`, holds
      the deploy section of the registry language and ends by announcing
      the registry port. */
  function GenerateDeployScript(framework: string, githubUrl: string, deploymentType: string): (r: Result<string, string>)
    ensures r.Failure? <==> !IsFrameworkSupported(framework)
    ensures r.Failure? ==> r.error == Validators.UnsupportedFrameworkMessage(framework)
    ensures r.Success? ==>
              var info := SupportedFrameworks[Lower(framework)];
              && StartsWith(r.value, Shebang)
              && Contains(r.value, CloneLine(githubUrl))
              && Contains(r.value, PortLine(info.port))
              && Contains(r.value, LanguageDeploy(info.language, framework, info.port))
              && EndsWith(r.value, ReadyLine(info.port))
  {
    match GetFrameworkInfo(framework)
    case None => Failure(Validators.UnsupportedFrameworkMessage(framework))
    case Some(info) =>
      var header := DeployHeader(framework, githubUrl, info.port);
      var trailer := DeployTrailer(info.port);
      var parts := [header, LanguageDeploy(info.language, framework, info.port), trailer];
      var script := Concat(parts);
      ConcatStartsWith(parts);
      StartsWithTransitive(script, header, Shebang);
      ConcatContains(parts, 0);
      ContainsTransitive(script, header, CloneLine(githubUrl));
      ContainsTransitive(script, header, PortLine(info.port));
      ConcatContains(parts, 1);
      ConcatEndsWith(parts);
      EndsWithTransitive(script, trailer, ReadyLine(info.port));
      Success(script)
  }

  // ---------------------------------------------------------------------
  // Properties across calls
  // ---------------------------------------------------------------------

  /** The deployment type is never read: both generators give the same
      answer for every value of it. */
  lemma InstallIgnoresDeploymentType(framework: string, t1: string, t2: string)
    ensures GenerateInstallScript(framework, t1) == GenerateInstallScript(framework, t2)
  {
  }

  lemma DeployIgnoresDeploymentType(framework: string, githubUrl: string, t1: string, t2: string)
    ensures GenerateDeployScript(framework, githubUrl, t1) == GenerateDeployScript(framework, githubUrl, t2)
  {
  }

  /** The registry is case-insensitive but the framework-specific branches
      compare the name as written: "React" is a supported JavaScript
      framework, yet its service runs `node server.js` instead of serving
      the static build. */
  lemma MixedCaseReactRunsNodeServer(githubUrl: string)
    ensures GenerateDeployScript("React", githubUrl, "vm").Success?
    ensures Contains(GenerateDeployScript("React", githubUrl, "vm").value, ExecStartLine(NodeServer))
  {
    assert Lower("React") == "react";
    assert SupportedFrameworks["react"] == FrameworkInfo(Javascript, 3000);
    assert "React" !in ["react", "vue", "nextjs"];
    ContainsTransitive(GenerateDeployScript("React", githubUrl, "vm").value,
      JavascriptDeploy("React", 3000), ExecStartLine(NodeServer));
  }

  /** Likewise "Flask" is accepted, but its install section is the bare
      Python toolchain without the flask and gunicorn packages, and its
      deploy section starts no service. */
  lemma MixedCaseFlaskGetsNoPackages(port: nat)
    ensures GetFrameworkInfo("Flask") == Some(FrameworkInfo(Python, 5000))
    ensures PythonInstall("Flask") == PythonToolchain
    ensures PythonDeploy("Flask", port) == PythonDependencies
  {
    assert Lower("Flask") == "flask";
  }
}
