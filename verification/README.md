# ddev describe: the plain-text project report

`ddev describe` prints a report about one project. `renderAppDescribe`
(`cmd/ddev/cmd/describe.go`) builds that report from the project's description
map. It always starts with the summary table. If the project's status is
`SiteRunning`, it then appends three sections and a status line:

- **Project Information:** the PHP version and the URLs.
- **MySQL Credentials:** the credential rows and a connection hint. Both are
  shown only when the database username is a string.
- **Other Services:** MailHog, plus phpMyAdmin when that key is present.
- **Status line:** the router status and the SSH-agent status.

The renderer has one error: the failure of the Docker IP lookup.

The model has four modules:

- `Describe` (`describe.dfy`):
  - The description map becomes a `Snapshot` datatype. Fields whose type the
    code checks at run time are `Option`s.
  - The code the renderer calls into becomes a `Collaborators` value: the
    summary table's text, how a table prints, the outcome of the Docker IP
    lookup, and the two status strings.
  - `RenderAppDescribe` is an imperative method. Like the Go function, it
    builds the report by appending to `output` and adding rows to tables.
  - `RenderAppDescribe` is proved equal to the specification function
    `Report`. `Report` describes the report as a list of `Piece`s
    (summary, heading, table, hint, status line) and renders it as the
    concatenation of their texts.
  - The lemmas state the report's structure in terms of those pieces: the
    order of the sections, the rows shown, and when the hint appears.
- `GoText` (`gotext.dfy`):
  - `strings.Join`, with lemmas that place every URL and every separator in
    the joined line, in input order.
  - The `%d` verb, with a parser that reads the printed digits back.
- `MysqlHint` (`mysqlhint.dfy`): the connection hint, and a reader for it.
  Reading a hint back gives the Docker IP and the port only if both mentions
  of each agree.
- `UiTables` (`uitable.dfy`): a table as the rows added to it and its
  `MaxColWidth`. How a table is laid out as text is a function parameter.

Three details of the code worth noting:

- The "MySQL Credentials" header is appended for every running project. Only
  the rows and the hint depend on the username.
- The Docker IP lookup happens before the credentials are examined. A failed
  lookup aborts the report even when there is no username.
- The "MariaDB version" caption has no colon, unlike the other captions.

## Model

| member | source | states |
|---|---|---|
| `Describe.RenderAppDescribe` | cmd/ddev/cmd/describe.go:52-104 | The returned value is the specified report `Report(s, env)`. A project that is not running gets exactly the summary table and no error, whatever its other fields hold. The result is an error exactly when the project is running and the Docker IP lookup fails, and that error is the lookup's own, even without a username. A running project whose lookup succeeds never gets an error. |
| `Describe.Report` | cmd/ddev/cmd/describe.go:52-104 | The function form of the renderer. A project that is not running gets exactly the summary table. A running project gets an error exactly when the Docker IP lookup fails, and that error is the lookup's own. What a successful running report contains is stated by `Describe.RunningReportText`. |
| `Describe.ProjectTableBuilt` | cmd/ddev/cmd/describe.go:66-69 | The site table is exactly what `uitable.New` followed by the "PHP version:" and "URLs:" AddRow calls builds, the URLs joined with ", ". |
| `Describe.CredentialTableBuilt` | cmd/ddev/cmd/describe.go:77-88 | The credentials table is exactly what `uitable.New`, setting MaxColWidth to 200, and the six AddRow calls build, in the source's order. |
| `Describe.ServiceTableBuilt` | cmd/ddev/cmd/describe.go:93-97 | The services table is exactly what `uitable.New` and the MailHog AddRow build, followed by the phpMyAdmin AddRow exactly when that key is present. |
| `UiTables.NewTable` | cmd/ddev/cmd/describe.go:66 | A new table has no rows and no column-width limit. |
| `UiTables.UiTable.AddRow` | cmd/ddev/cmd/describe.go:67 | AddRow appends exactly one row, the given caption and value, after the existing rows, which it keeps unchanged, and it keeps the table's MaxColWidth. |
| `MysqlHint.HintText` | cmd/ddev/cmd/describe.go:90 | The hint the Sprintf call formats, for a printed port, reads back as its IP and port. |
| `Describe.RunningReportText` | cmd/ddev/cmd/describe.go:61-100 | The text of a running report is, in this order: the summary table, the "Project Information" banner, the site table, the "MySQL Credentials" banner, the credential block, the "Other Services" banner, the services table, then a newline, the router status, a tab and the SSH-agent status. |
| `Describe.CredentialText` | cmd/ddev/cmd/describe.go:81-91 | The credential block is the credentials table followed by the connection hint for the Docker IP and the printed published port when the username is a string, and is empty otherwise. |
| `Describe.SectionsInFixedOrder` | cmd/ddev/cmd/describe.go:61-100 | A running report carries exactly three section headings, Project Information, MySQL Credentials and Other Services, in this order, whether or not there is a username. It begins with the summary table and ends with the status line. |
| `Describe.RowsShown` | cmd/ddev/cmd/describe.go:66-98 | The rows of all tables of a running report, captions and values, in order and with nothing else: PHP version; the URLs joined with ", "; the six credential rows (Username, Password, Database name, Host, Port, MariaDB version) exactly when the username is a string; MailHog always; phpMyAdmin exactly when its key is present, with its value. |
| `Describe.HintShownIff` | cmd/ddev/cmd/describe.go:81-91 | A running report contains a connection hint exactly when the username is a string. Every hint in it reads back as the Docker IP and a digit string whose value is the published port. |
| `Describe.CredentialHint` | cmd/ddev/cmd/describe.go:81-90 | The same two facts for the credential block alone: it holds a hint exactly when the username is a string, and the hint reads back as the Docker IP and the published port. |
| `GoText.JoinAt` | cmd/ddev/cmd/describe.go:69 | In the joined URL line, every URL occurs whole at its own offset. |
| `GoText.JoinSeparatorAt` | cmd/ddev/cmd/describe.go:69 | Every URL except the last is directly followed by ", ". |
| `GoText.JoinEnd` | cmd/ddev/cmd/describe.go:69 | The last URL ends the joined line. |
| `GoText.JoinKeepsOrder` | cmd/ddev/cmd/describe.go:69 | An earlier URL, with the separator after it, ends before a later URL starts, so the input order is kept. |
| `GoText.OffsetStep` | cmd/ddev/cmd/describe.go:69 | Consecutive URLs start one URL and one separator apart. |
| `GoText.Decimal` | cmd/ddev/cmd/describe.go:90 | `%d` prints a port as a non-empty string of decimal digits that starts with '0' only for the value 0. |
| `GoText.DecimalRoundTrip` | cmd/ddev/cmd/describe.go:90 | The digits `%d` prints read back as the number that was printed. |
| `MysqlHint.HintShape` | cmd/ddev/cmd/describe.go:90 | The hint is the sentence naming the port and then the IP, followed by the client command `mysql --host=<ip> --port=<port> --user=db --password=db --database=db` for the same IP and port. |
| `MysqlHint.HintReadsBack` | cmd/ddev/cmd/describe.go:90 | For a printed port, a text reads back as that IP and port exactly when it is the hint for them. The sentence and the command therefore name the same IP and the same port. |
| `MysqlHint.ParseFormat` | cmd/ddev/cmd/describe.go:90 | Text of the hint's form, filled with an IP and a digit string, reads back as that IP and digit string. |
| `MysqlHint.ParseSound` | cmd/ddev/cmd/describe.go:90 | Whatever reads back as an IP and a port is exactly the text of that form filled with them, and the port is a non-empty digit string. |

## Left out

- The cobra `Run` handler (cmd/ddev/cmd/describe.go:25-48) is not modelled. It checks the argument count, resolves the project, prints, and exits the process on errors; it has no local logic.
- The `init` registration with the root command (cmd/ddev/cmd/describe.go:106-108) is not modelled.
- `dockerutil.GetDockerIP` is not part of this model. Its outcome is the input `Collaborators.dockerIP`, a `Result`.
- `ddevapp.CreateAppTable` and `RenderAppRow` are not part of this model. The printed summary table is the input function `Collaborators.appTable` of the snapshot.
- `RenderRouterStatus` and `RenderSSHAuthStatus` are not part of this model. They are the input strings `routerStatus` and `sshAuthStatus`.
- The value of `ddevapp.SiteRunning` is taken to be "running"; ddevapp is not part of this model. A status that is not a string is modelled as any string other than that one.
- The uitable package's layout is not modelled. Column padding and wrapping, including the effect of `MaxColWidth` = 200, are an arbitrary function (`Layout`) of the table's rows and width.
- A table is modelled by its value, not as a shared object updated in place. Each table is local to the renderer and never aliased, so no behaviour is lost.
- `fmt` printing of map values of unexpected types is not modelled. Printed values are strings and `published_port` is a natural number printed by `%d`. A missing `mailhog_url`, which fmt prints as `<nil>`, is not modelled.
- The panics of the type assertions on "urls" and "dbinfo" are the precondition `Renderable`. A running project must have URLs, and it must have a "dbinfo" entry whenever the Docker IP lookup succeeds, since only then is that assertion reached.
- Go's error return `("", err)` is modelled as `Fail(err)`. The empty string accompanying the error is not carried.
