/**
 * The default session name `user@host` (assumerole/main.py, get_default_session_name).
 * The account name and the raw host name come from the operating system in the
 * source; here they are parameters.
 */
module SessionName {

  /** The host name cut at its first '.', as `hostname.partition(".")[0]` gives it. */
  function ShortHost(hostname: string): (host: string)
    ensures host <= hostname
    ensures '.' !in host
    ensures |host| < |hostname| ==> hostname[|host|] == '.'
  {
    if hostname == [] || hostname[0] == '.' then []
    else [hostname[0]] + ShortHost(hostname[1..])
  }

  /** The three properties of ShortHost pin it down: any dot-free prefix that stops at a dot or at the end is it. */
  lemma ShortHostIsUnique(hostname: string, host: string)
    requires host <= hostname
    requires '.' !in host
    requires |host| < |hostname| ==> hostname[|host|] == '.'
    ensures host == ShortHost(hostname)
  {
  }

  /** `user@host`, with host the part of the host name before its first '.'. */
  function DefaultSessionName(user: string, hostname: string): (name: string)
    ensures |name| > |user| && name[..|user|] == user && name[|user|] == '@'
    ensures var host := name[|user| + 1..];
      host <= hostname && '.' !in host && (|host| < |hostname| ==> hostname[|host|] == '.')
  {
    var host := ShortHost(hostname);
    assert (user + "@" + host)[|user| + 1..] == host;
    user + "@" + host
  }

  /** User alice on host box.example.com gets the session name alice@box. */
  lemma DefaultSessionNameExample()
    ensures DefaultSessionName("alice", "box.example.com") == "alice@box"
  {
  }
}
