/** The two host parsers: the daemon's (internal/daemon/handlers.go) and the TUI's (internal/tui/details.go). */
module Hosts {
  import opened Text
  import Config

  /** What the SSH configuration lookup returns for an alias. */
  datatype Resolved = Resolved(hostname: string, user: string, port: string)

  function Address(r: Resolved): string {
    r.hostname + ":" + r.port
  }

  /** The daemon's `parseHost`: (address, user); `resolve` looks aliases up in the SSH configuration. */
  function DaemonParse(host: string, resolve: string -> Resolved): (string, string) {
    if '@' in host || ':' in host then
      var at := Index(host, '@');
      var user := if at != -1 then host[..at] else "";
      var addr := if at != -1 then host[at + 1..] else host;
      (if ':' !in addr then addr + ":22" else addr, user)
    else
      (Address(resolve(host)), resolve(host).user)
  }

  /** The TUI's `parseHost`: (user, hostname, port). */
  function TuiParse(host: string): (string, string, string) {
    var at := Index(host, '@');
    var user := if at != -1 then host[..at] else "";
    var rest := if at != -1 then host[at + 1..] else host;
    var colon := LastIndex(rest, ':');
    if colon != -1 then (user, rest[..colon], rest[colon + 1..]) else (user, rest, "22")
  }

  /** Both parsers name the same user and the same address. */
  ghost predicate Agree(host: string, resolve: string -> Resolved) {
    var (addr, user) := DaemonParse(host, resolve);
    var (user', hostname, port) := TuiParse(host);
    addr == hostname + ":" + port && user == user'
  }

  /** Although one tests for any colon and the other splits at the last one. */
  lemma ExplicitAgree(host: string, resolve: string -> Resolved)
    requires '@' in host || ':' in host
    ensures Agree(host, resolve)
  {
    var at := Index(host, '@');
    PortSplits(if at != -1 then host[at + 1..] else host);
  }

  lemma PortSplits(rest: string)
    ensures ':' in rest ==>
              var colon := LastIndex(rest, ':'); rest == rest[..colon] + ":" + rest[colon + 1..]
    ensures rest + ":" + "22" == rest + ":22"
  {
  }

  /**
   * The parsers agree on every explicit address, and on an alias exactly when the SSH
   * configuration resolves it to itself on port 22 with no user.
   */
  lemma ParsersAgree(host: string, resolve: string -> Resolved)
    ensures Agree(host, resolve) <==>
            '@' in host || ':' in host || (Address(resolve(host)) == host + ":" + "22" && resolve(host).user == "")
  {
    if '@' in host || ':' in host {
      ExplicitAgree(host, resolve);
    }
  }

  /** What the daemon dials for each form of host: user and address, address alone, or an alias. */
  lemma DaemonParseExact(user: string, addr: string, resolve: string -> Resolved)
    requires '@' !in user
    ensures DaemonParse(user + ['@'] + addr, resolve) == (if ':' in addr then addr else addr + ":22", user)
    ensures '@' !in addr && ':' in addr ==> DaemonParse(addr, resolve) == (addr, "")
    ensures '@' !in addr && ':' !in addr ==>
              DaemonParse(addr, resolve) == (resolve(addr).hostname + ":" + resolve(addr).port, resolve(addr).user)
  {
    var host := user + ['@'] + addr;
    IndexOfFirst(user, '@', addr);
    assert host[|user|] == '@';
    assert host[|user| + 1..] == addr && host[..|user|] == user;
  }

  /** A host without a user or without a port: no user, and the default port. */
  lemma TuiParseDefaults(hostname: string, port: string)
    requires '@' !in hostname && '@' !in port && ':' !in port
    ensures TuiParse(hostname + [':'] + port) == ("", hostname, port)
    ensures ':' !in hostname ==> TuiParse(hostname) == ("", hostname, "22")
  {
    var rest := hostname + [':'] + port;
    LastIndexOfLast(hostname, ':', port);
    assert '@' !in rest;
    assert rest[..|hostname|] == hostname && rest[|hostname| + 1..] == port;
  }

  /** Writing the parts back together and parsing again gives the parts. */
  lemma TuiParseInverts(user: string, hostname: string, port: string)
    requires '@' !in user && ':' !in port
    ensures TuiParse(user + ['@'] + (hostname + [':'] + port)) == (user, hostname, port)
  {
    var rest := hostname + [':'] + port;
    var host := user + ['@'] + rest;
    IndexOfFirst(user, '@', rest);
    LastIndexOfLast(hostname, ':', port);
    assert host[|user| + 1..] == rest && host[..|user|] == user;
    assert rest[..|hostname|] == hostname && rest[|hostname| + 1..] == port;
  }

  /** A name derived from a host is the daemon's address for it, up to the default port. */
  lemma DerivedNameIsAddress(host: string, resolve: string -> Resolved)
    requires '@' in host || ':' in host
    ensures var name := Config.DeriveName(host);
            DaemonParse(host, resolve).0 == if ':' in name then name else name + ":22"
  {
  }
}
