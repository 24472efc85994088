/** The two strings the package formats: the SQL Server connection string
    built by `OpenOTRconnection`, and the caller-tagged line of `logEntry`.
    Opening the connection and asking the runtime for the caller are not
    modelled; the caller's file, line and function name are inputs. */
module Formatting {
  import opened Wrappers
  import opened Text
  import opened Configuration
  import opened Lookup

  /** The six `key=value` settings of a connection string, in order. */
  function DsnSettings(server: string, database: string, user: string, password: string, appName: string): seq<string> {
    ["server=" + server, "database=" + database, "user id=" + user, "password=" + password,
     "connection timeout=300", "app name=" + appName]
  }

  /** The connection string for one entry: the settings separated by
      semicolons, values inserted verbatim. */
  function Dsn(server: string, database: string, user: string, password: string, appName: string): string {
    Join(DsnSettings(server, database, user, password, appName), ';')
  }

  lemma KeyPrefixNoSemicolon(key: string, value: string)
    requires ';' !in key && ';' !in value
    ensures ';' !in key + value
  {
  }

  /** When no value contains a semicolon, the connection string splits back
      into exactly its six settings; nothing is quoted, so a semicolon inside
      a value (a password, say) would add settings. */
  lemma DsnSplitsIntoSettings(server: string, database: string, user: string, password: string, appName: string)
    requires ';' !in server && ';' !in database && ';' !in user && ';' !in password && ';' !in appName
    ensures Split(Dsn(server, database, user, password, appName), ';') == DsnSettings(server, database, user, password, appName)
  {
    var parts := DsnSettings(server, database, user, password, appName);
    KeyPrefixNoSemicolon("server=", server);
    KeyPrefixNoSemicolon("database=", database);
    KeyPrefixNoSemicolon("user id=", user);
    KeyPrefixNoSemicolon("password=", password);
    KeyPrefixNoSemicolon("connection timeout=300", "");
    KeyPrefixNoSemicolon("app name=", appName);
    assert "connection timeout=300" + "" == "connection timeout=300";
    SplitJoin(parts, ';');
  }

  /** The connection string `OpenOTRconnection` builds for a brand: the lookup
      of the brand, then the entry's server, database, user and password
      with the application name. A failed lookup yields no string. */
  function ConnectionString(appName: string, cfg: ApplicationConfiguration, otrName: string): (r: Result<string, LookupError>)
    ensures r.Failure? <==> GetDatabaseConfig(cfg, otrName).Failure?
    ensures r.Failure? ==> r.error == GetDatabaseConfig(cfg, otrName).error
    ensures r.Success? ==>
              exists i :: && IsFirstMatch(cfg.connections, otrName, i)
                          && cfg.connections[i].connectionName != ""
                          && r.value == Dsn(cfg.connections[i].server, cfg.connections[i].database,
                                            cfg.connections[i].dbUsername, cfg.connections[i].dbPassword, appName)
  {
    var c :- GetDatabaseConfig(cfg, otrName);
    Success(Dsn(c.server, c.database, c.dbUsername, c.dbPassword, appName))
  }

  /** `logEntry` once the runtime has reported the caller's file path, line
      and qualified function name: only the last path element and the last
      dotted component are kept. */
  function LogEntry(msg: string, file: string, line: int, funcName: string): string {
    " file: " + SuffixAfterLast(file, '/') + ":" + Itoa(line)
      + ", function: " + SuffixAfterLast(funcName, '.') + ", msg: " + msg
  }

  /** A log line is ` file: `, the last element of the caller's path, `:`,
      the line number in decimal, `, function: `, the last dotted component
      of the function name, `, msg: ` and the message unchanged. */
  lemma LogEntryFraming(msg: string, file: string, line: int, funcName: string)
    ensures exists base, digits, fn ::
              && LogEntry(msg, file, line, funcName)
                   == " file: " + base + ":" + digits + ", function: " + fn + ", msg: " + msg
              && IsLastElement(file, '/', base)
              && IsLastElement(funcName, '.', fn)
              && (line >= 0 ==> IsCanonicalDecimal(digits) && ParseDecimal(digits) == line)
              && (line < 0 ==> |digits| > 0 && digits[0] == '-' && IsCanonicalDecimal(digits[1..])
                               && ParseDecimal(digits[1..]) == -line)
  {
    ItoaReadsBack(line);
    var base, digits, fn := SuffixAfterLast(file, '/'), Itoa(line), SuffixAfterLast(funcName, '.');
    assert line < 0 ==> |digits| > 0 && digits[0] == '-' && IsCanonicalDecimal(digits[1..])
                        && ParseDecimal(digits[1..]) == -line;
    assert LogEntry(msg, file, line, funcName)
             == " file: " + base + ":" + digits + ", function: " + fn + ", msg: " + msg;
  }
}
