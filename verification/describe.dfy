/** The plain-text report of `ddev describe`: a summary table for any project,
    and for a running project the project information, the MySQL credentials,
    the other services and the router and SSH-agent status. */
module Describe {
  import opened Wrappers
  import opened GoText
  import opened UiTables
  import opened MysqlHint

  /** The status value of a running project (ddevapp.SiteRunning). */
  const SiteRunning: string := "running"

  /** MaxColWidth of the credentials table. */
  const MaxWidth: nat := 200

  const ProjectInformation := "Project Information"
  const MysqlCredentials := "MySQL Credentials"
  const OtherServices := "Other Services"
  const ProjectRule := "-----------------"
  const MysqlRule := "-----------------"
  const OtherRule := "--------------"

  /** The snapshot's "dbinfo" entry. `username` is None when the key is
      missing or does not hold a string. */
  datatype DbInfo = DbInfo(
    username: Option<string>,
    password: string,
    dbname: string,
    host: string,
    port: string,
    publishedPort: nat,
    mariadbVersion: string)

  /** The description of one project. `urls` and `dbinfo` are None when the
      key is missing or holds a value of another type; `phpmyadminUrl` is None
      exactly when the key is missing. The fields that only the summary table
      reads are left to that table's collaborator. */
  datatype Snapshot = Snapshot(
    status: string,
    phpVersion: string,
    urls: Option<seq<string>>,
    dbinfo: Option<DbInfo>,
    mailhogUrl: string,
    phpmyadminUrl: Option<string>)

  /** The error returned by the Docker IP lookup. */
  datatype LookupError = LookupError(message: string)

  /** What the renderer takes from code outside this file: the printed
      summary table of a snapshot, how a table prints, the outcome of the
      Docker IP lookup, and the router and SSH-agent status lines. */
  datatype Collaborators = Collaborators(
    appTable: Snapshot -> string,
    layout: Layout,
    dockerIP: Result<string, LookupError>,
    routerStatus: string,
    sshAuthStatus: string)

  predicate IsRunning(s: Snapshot)
  {
    s.status == SiteRunning
  }

  /** The type assertions on "urls" and "dbinfo" succeed wherever they are
      reached: "urls" is read in every running report, "dbinfo" only once the
      Docker IP lookup has succeeded. */
  predicate Renderable(s: Snapshot, env: Collaborators)
  {
    IsRunning(s) ==> s.urls.Some? && (env.dockerIP.Ok? ==> s.dbinfo.Some?)
  }

  /** The report, one printed part at a time. */
  datatype Piece =
    | Summary(text: string)
    | Heading(title: string, rule: string)
    | Table(table: UiTable)
    | Hint(ip: string, port: string)
    | StatusLine(router: string, ssh: string)

  /** A section header: a blank line, the title, and a rule under it. */
  function Banner(title: string, rule: string): string
  {
    "\n\n" + title + "\n" + rule + "\n"
  }

  function PieceText(p: Piece, layout: Layout): string
  {
    match p
    case Summary(text) => text
    case Heading(title, rule) => Banner(title, rule)
    case Table(table) => layout(table)
    case Hint(ip, port) => HintText(ip, port)
    case StatusLine(router, ssh) => "\n" + router + "\t" + ssh
  }

  /** The concatenation of f(x) over xs, in order. */
  function Gather<A, T>(xs: seq<A>, f: A -> seq<T>): seq<T>
  {
    if xs == [] then [] else Gather(xs[..|xs| - 1], f) + f(xs[|xs| - 1])
  }

  lemma {:induction false} GatherAppend<A, T>(xs: seq<A>, ys: seq<A>, f: A -> seq<T>)
    ensures Gather(xs + ys, f) == Gather(xs, f) + Gather(ys, f)
    decreases |ys|
  {
    if ys == [] {
      assert xs + ys == xs;
    } else {
      var init := ys[..|ys| - 1];
      assert (xs + ys)[..|xs + ys| - 1] == xs + init;
      GatherAppend(xs, init, f);
    }
  }

  /** The text of a report: the texts of its pieces, in order. */
  function Render(ps: seq<Piece>, layout: Layout): string
  {
    Gather(ps, p => PieceText(p, layout))
  }

  function TitleOf(p: Piece): seq<string>
  {
    if p.Heading? then [p.title] else []
  }

  /** The section titles of a report, in order. */
  function Titles(ps: seq<Piece>): seq<string>
  {
    Gather(ps, TitleOf)
  }

  function RowsOf(p: Piece): seq<Row>
  {
    if p.Table? then p.table.rows else []
  }

  /** The rows of all tables of a report, in order. */
  function Rows(ps: seq<Piece>): seq<Row>
  {
    Gather(ps, RowsOf)
  }

  /** The "Project Information" table. */
  function ProjectTable(s: Snapshot): UiTable
    requires s.urls.Some?
  {
    UiTable([Row("PHP version:", s.phpVersion), Row("URLs:", Join(s.urls.value, ", "))], 0)
  }

  /** The MySQL credentials table. */
  function CredentialTable(d: DbInfo): UiTable
    requires d.username.Some?
  {
    UiTable([Row("Username:", d.username.value), Row("Password:", d.password),
             Row("Database name:", d.dbname), Row("Host:", d.host), Row("Port:", d.port),
             Row("MariaDB version", d.mariadbVersion)], MaxWidth)
  }

  /** The credentials table and the connection hint, when the username is a string. */
  function CredentialPieces(d: DbInfo, ip: string): seq<Piece>
  {
    if d.username.Some? then [Table(CredentialTable(d)), Hint(ip, Decimal(d.publishedPort))]
    else []
  }

  /** The "Other Services" table. */
  function ServiceTable(s: Snapshot): UiTable
  {
    UiTable([Row("MailHog:", s.mailhogUrl)]
            + (if s.phpmyadminUrl.Some? then [Row("phpMyAdmin:", s.phpmyadminUrl.value)] else []), 0)
  }

  /** The whole report of a running project whose Docker IP is `ip`. */
  function RunningReport(s: Snapshot, env: Collaborators, ip: string): seq<Piece>
    requires s.urls.Some? && s.dbinfo.Some?
  {
    [Summary(env.appTable(s)),
     Heading(ProjectInformation, ProjectRule), Table(ProjectTable(s)),
     Heading(MysqlCredentials, MysqlRule)]
    + CredentialPieces(s.dbinfo.value, ip)
    + [Heading(OtherServices, OtherRule), Table(ServiceTable(s)),
       StatusLine(env.routerStatus, env.sshAuthStatus)]
  }

  /** What renderAppDescribe returns for a snapshot: the summary table alone
      unless the project is running; for a running project the lookup's error
      if the Docker IP lookup fails, and the whole report otherwise. */
  function Report(s: Snapshot, env: Collaborators): (r: Result<string, LookupError>)
    requires Renderable(s, env)
    ensures !IsRunning(s) ==> r == Ok(env.appTable(s))
    ensures r.Fail? <==> IsRunning(s) && env.dockerIP.Fail?
    ensures r.Fail? ==> r.error == env.dockerIP.error
  {
    if !IsRunning(s) then Ok(env.appTable(s))
    else
      match env.dockerIP
      case Fail(e) => Fail(e)
      case Ok(ip) => Ok(Render(RunningReport(s, env, ip), env.layout))
  }

  /** The site table is what uitable.New and the two AddRow calls build. */
  lemma ProjectTableBuilt(s: Snapshot)
    requires s.urls.Some?
    ensures NewTable().AddRow("PHP version:", s.phpVersion).AddRow("URLs:", Join(s.urls.value, ", "))
            == ProjectTable(s)
  {
  }

  /** The credentials table is what uitable.New, the MaxColWidth setting and
      the six AddRow calls build. */
  lemma CredentialTableBuilt(d: DbInfo)
    requires d.username.Some?
    ensures NewTable().(maxColWidth := MaxWidth)
              .AddRow("Username:", d.username.value).AddRow("Password:", d.password)
              .AddRow("Database name:", d.dbname).AddRow("Host:", d.host)
              .AddRow("Port:", d.port).AddRow("MariaDB version", d.mariadbVersion)
            == CredentialTable(d)
  {
    var rows := CredentialTable(d).rows;
    assert [] + [rows[0]] + [rows[1]] + [rows[2]] + [rows[3]] + [rows[4]] + [rows[5]] == rows;
  }

  /** The services table is what uitable.New and the one or two AddRow calls build. */
  lemma ServiceTableBuilt(s: Snapshot)
    ensures var mailhog := NewTable().AddRow("MailHog:", s.mailhogUrl);
            (if s.phpmyadminUrl.Some? then mailhog.AddRow("phpMyAdmin:", s.phpmyadminUrl.value) else mailhog)
            == ServiceTable(s)
  {
  }

  lemma Regroup(a: string, b: string, c: string)
    ensures a + b + c == a + (b + c)
  {
  }

  lemma GatherOne<A, T>(x: A, f: A -> seq<T>)
    ensures Gather([x], f) == f(x)
  {
    assert [x][..0] == [];
  }

  lemma GatherSnoc<A, T>(xs: seq<A>, x: A, f: A -> seq<T>)
    ensures Gather(xs + [x], f) == Gather(xs, f) + f(x)
  {
    assert (xs + [x])[..|xs|] == xs;
  }

  /** Gathering over the credential pieces. */
  lemma GatherCredentials<T>(d: DbInfo, ip: string, f: Piece -> seq<T>)
    ensures Gather(CredentialPieces(d, ip), f) ==
            if d.username.Some? then f(Table(CredentialTable(d))) + f(Hint(ip, Decimal(d.publishedPort)))
            else []
  {
    if d.username.Some? {
      var table := Table(CredentialTable(d));
      var hint := Hint(ip, Decimal(d.publishedPort));
      GatherOne(table, f);
      GatherSnoc([table], hint, f);
      assert [table] + [hint] == [table, hint];
    }
  }

  /** Gathering over a running report, piece by piece. */
  lemma GatherReport<T>(s: Snapshot, env: Collaborators, ip: string, f: Piece -> seq<T>)
    requires s.urls.Some? && s.dbinfo.Some?
    ensures Gather(RunningReport(s, env, ip), f) ==
            f(Summary(env.appTable(s)))
            + f(Heading(ProjectInformation, ProjectRule)) + f(Table(ProjectTable(s)))
            + f(Heading(MysqlCredentials, MysqlRule)) + Gather(CredentialPieces(s.dbinfo.value, ip), f)
            + f(Heading(OtherServices, OtherRule)) + f(Table(ServiceTable(s)))
            + f(StatusLine(env.routerStatus, env.sshAuthStatus))
  {
    var p0, p1, p2, p3 := Summary(env.appTable(s)), Heading(ProjectInformation, ProjectRule),
                          Table(ProjectTable(s)), Heading(MysqlCredentials, MysqlRule);
    var cred := CredentialPieces(s.dbinfo.value, ip);
    var p4, p5, p6 := Heading(OtherServices, OtherRule), Table(ServiceTable(s)),
                      StatusLine(env.routerStatus, env.sshAuthStatus);
    GatherOne(p0, f);
    GatherSnoc([p0], p1, f);
    assert [p0] + [p1] == [p0, p1];
    GatherSnoc([p0, p1], p2, f);
    assert [p0, p1] + [p2] == [p0, p1, p2];
    GatherSnoc([p0, p1, p2], p3, f);
    assert [p0, p1, p2] + [p3] == [p0, p1, p2, p3];
    var front := [p0, p1, p2, p3];
    GatherAppend(front, cred, f);
    GatherSnoc(front + cred, p4, f);
    GatherSnoc(front + cred + [p4], p5, f);
    GatherSnoc(front + cred + [p4] + [p5], p6, f);
    assert RunningReport(s, env, ip) == front + cred + [p4] + [p5] + [p6];
  }

  /** The text of the credentials block. */
  lemma CredentialText(d: DbInfo, ip: string, layout: Layout)
    ensures Render(CredentialPieces(d, ip), layout) ==
            if d.username.Some? then layout(CredentialTable(d)) + HintText(ip, Decimal(d.publishedPort))
            else ""
  {
    GatherCredentials(d, ip, p => PieceText(p, layout));
  }

  /** The text of a running report, section by section. */
  lemma RunningReportText(s: Snapshot, env: Collaborators, ip: string)
    requires s.urls.Some? && s.dbinfo.Some?
    ensures Render(RunningReport(s, env, ip), env.layout) ==
            env.appTable(s)
            + Banner(ProjectInformation, ProjectRule) + env.layout(ProjectTable(s))
            + Banner(MysqlCredentials, MysqlRule) + Render(CredentialPieces(s.dbinfo.value, ip), env.layout)
            + Banner(OtherServices, OtherRule) + env.layout(ServiceTable(s))
            + "\n" + env.routerStatus + "\t" + env.sshAuthStatus
  {
    GatherReport(s, env, ip, p => PieceText(p, env.layout));
    var t := env.appTable(s)
            + Banner(ProjectInformation, ProjectRule) + env.layout(ProjectTable(s))
            + Banner(MysqlCredentials, MysqlRule) + Render(CredentialPieces(s.dbinfo.value, ip), env.layout)
            + Banner(OtherServices, OtherRule) + env.layout(ServiceTable(s));
    StatusLineAppended(t, env.routerStatus, env.sshAuthStatus);
  }

  lemma StatusLineAppended(text: string, router: string, ssh: string)
    ensures text + "\n" + router + "\t" + ssh == text + ("\n" + router + "\t" + ssh)
  {
  }

  /** A running report has its three section headers, always in this order:
      the MySQL Credentials header is there whether or not credentials are. It
      starts with the summary table and ends with the router and SSH-agent
      status line. */
  lemma SectionsInFixedOrder(s: Snapshot, env: Collaborators, ip: string)
    requires s.urls.Some? && s.dbinfo.Some?
    ensures Titles(RunningReport(s, env, ip)) == [ProjectInformation, MysqlCredentials, OtherServices]
    ensures RunningReport(s, env, ip)[0] == Summary(env.appTable(s))
    ensures RunningReport(s, env, ip)[|RunningReport(s, env, ip)| - 1]
            == StatusLine(env.routerStatus, env.sshAuthStatus)
  {
    GatherReport(s, env, ip, TitleOf);
    GatherCredentials(s.dbinfo.value, ip, TitleOf);
  }

  /** The rows a running report shows, in order, and nothing else: the PHP
      version and the URLs joined with ", "; the six credential rows exactly
      when the username is a string; the MailHog row always; the phpMyAdmin
      row exactly when its key is present. */
  lemma RowsShown(s: Snapshot, env: Collaborators, ip: string)
    requires s.urls.Some? && s.dbinfo.Some?
    ensures var d := s.dbinfo.value;
            Rows(RunningReport(s, env, ip)) ==
            [Row("PHP version:", s.phpVersion), Row("URLs:", Join(s.urls.value, ", "))]
            + (if d.username.Some?
               then [Row("Username:", d.username.value), Row("Password:", d.password),
                     Row("Database name:", d.dbname), Row("Host:", d.host), Row("Port:", d.port),
                     Row("MariaDB version", d.mariadbVersion)]
               else [])
            + [Row("MailHog:", s.mailhogUrl)]
            + (if s.phpmyadminUrl.Some? then [Row("phpMyAdmin:", s.phpmyadminUrl.value)] else [])
  {
    var d := s.dbinfo.value;
    GatherReport(s, env, ip, RowsOf);
    GatherCredentials(d, ip, RowsOf);
    var credentialRows := Gather(CredentialPieces(d, ip), RowsOf);
    if d.username.Some? {
      var rows := CredentialTable(d).rows;
      assert rows + [] == rows;
    }
    var phpmyadmin := if s.phpmyadminUrl.Some? then [Row("phpMyAdmin:", s.phpmyadminUrl.value)] else [];
    DropEmpty(ProjectTable(s).rows, credentialRows, [Row("MailHog:", s.mailhogUrl)], phpmyadmin);
  }

  lemma DropEmpty<T>(a: seq<T>, b: seq<T>, c: seq<T>, d: seq<T>)
    ensures [] + [] + a + [] + b + [] + (c + d) + [] == a + b + c + d
  {
  }

  /** A running report holds a connection hint exactly when the username is a
      string, and that hint reads back as the Docker IP and the published port,
      the same in the sentence and in the client command. */
  lemma HintShownIff(s: Snapshot, env: Collaborators, ip: string)
    requires s.urls.Some? && s.dbinfo.Some?
    ensures (exists p :: p in RunningReport(s, env, ip) && p.Hint?) <==> s.dbinfo.value.username.Some?
    ensures forall p :: p in RunningReport(s, env, ip) && p.Hint? ==>
              ParseHint(PieceText(p, env.layout)) == Some((ip, p.port)) &&
              IsDigits(p.port) && ParseDecimal(p.port) == s.dbinfo.value.publishedPort
  {
    HintsAreCredentials(s, env, ip);
    CredentialHint(s.dbinfo.value, ip, env.layout);
  }

  /** The credentials block holds a hint exactly when the username is a
      string, and the hint reads back as `ip` and the published port. */
  lemma CredentialHint(d: DbInfo, ip: string, layout: Layout)
    ensures (exists p :: p in CredentialPieces(d, ip) && p.Hint?) <==> d.username.Some?
    ensures forall p :: p in CredentialPieces(d, ip) && p.Hint? ==>
              ParseHint(PieceText(p, layout)) == Some((ip, p.port)) &&
              IsDigits(p.port) && ParseDecimal(p.port) == d.publishedPort
  {
    var port := Decimal(d.publishedPort);
    if d.username.Some? {
      assert CredentialPieces(d, ip)[1] == Hint(ip, port);
    }
    forall p | p in CredentialPieces(d, ip) && p.Hint?
      ensures ParseHint(PieceText(p, layout)) == Some((ip, p.port))
      ensures IsDigits(p.port) && ParseDecimal(p.port) == d.publishedPort
    {
      assert p == Hint(ip, port);
      HintReadsBack(HintText(ip, port), ip, port);
      DecimalRoundTrip(d.publishedPort);
    }
  }

  /** The only hint of a running report is the one of its credentials block. */
  lemma HintsAreCredentials(s: Snapshot, env: Collaborators, ip: string)
    requires s.urls.Some? && s.dbinfo.Some?
    ensures forall p :: p in RunningReport(s, env, ip) && p.Hint? ==> p in CredentialPieces(s.dbinfo.value, ip)
    ensures forall p :: p in CredentialPieces(s.dbinfo.value, ip) ==> p in RunningReport(s, env, ip)
  {
  }

  /** renderAppDescribe: builds the report by appending to `output`, and
      returns the lookup error as soon as the Docker IP lookup fails. */
  method RenderAppDescribe(s: Snapshot, env: Collaborators) returns (r: Result<string, LookupError>)
    requires Renderable(s, env)
    ensures r == Report(s, env)
    ensures !IsRunning(s) ==> r == Ok(env.appTable(s))
    ensures r.Fail? <==> IsRunning(s) && env.dockerIP.Fail?
    ensures r.Fail? ==> r.error == env.dockerIP.error
  {
    var maxWidth := MaxWidth;
    var output: string;
    var status := s.status;

    output := env.appTable(s);

    if status == SiteRunning {
      output := output + Banner(ProjectInformation, ProjectRule);
      var siteInfo := NewTable();
      siteInfo := siteInfo.AddRow("PHP version:", s.phpVersion);
      siteInfo := siteInfo.AddRow("URLs:", Join(s.urls.value, ", "));
      ProjectTableBuilt(s);
      output := output + env.layout(siteInfo);

      var dockerIP := env.dockerIP;
      if dockerIP.Fail? {
        return Fail(dockerIP.error);
      }
      var ip := dockerIP.value;

      output := output + Banner(MysqlCredentials, MysqlRule);
      ghost var beforeCredentials := output;
      var dbTable := NewTable();

      var dbinfo := s.dbinfo.value;

      if dbinfo.username.Some? {
        dbTable := dbTable.(maxColWidth := maxWidth);
        dbTable := dbTable.AddRow("Username:", dbinfo.username.value);
        dbTable := dbTable.AddRow("Password:", dbinfo.password);
        dbTable := dbTable.AddRow("Database name:", dbinfo.dbname);
        dbTable := dbTable.AddRow("Host:", dbinfo.host);
        dbTable := dbTable.AddRow("Port:", dbinfo.port);
        dbTable := dbTable.AddRow("MariaDB version", dbinfo.mariadbVersion);
        CredentialTableBuilt(dbinfo);
        output := output + env.layout(dbTable);
        output := output + HintText(ip, Decimal(dbinfo.publishedPort));
        Regroup(beforeCredentials, env.layout(dbTable), HintText(ip, Decimal(dbinfo.publishedPort)));
      }
      CredentialText(dbinfo, ip, env.layout);
      assert output == beforeCredentials + Render(CredentialPieces(dbinfo, ip), env.layout);

      output := output + Banner(OtherServices, OtherRule);
      var other := NewTable();
      other := other.AddRow("MailHog:", s.mailhogUrl);
      if s.phpmyadminUrl.Some? {
        other := other.AddRow("phpMyAdmin:", s.phpmyadminUrl.value);
      }
      ServiceTableBuilt(s);
      output := output + env.layout(other);

      output := output + "\n" + env.routerStatus + "\t" + env.sshAuthStatus;
      RunningReportText(s, env, ip);
    }

    r := Ok(output);
  }
}
