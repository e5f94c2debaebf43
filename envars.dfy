/**
 * The credential formatter (assumerole/main.py, compose_envars): three shell
 * `export NAME=VALUE` lines, in a fixed order, joined by newlines.
 */
module Envars {

  /** The temporary credentials of an assume-role response (its expiration is only logged, so it is left out). */
  datatype Credentials = Credentials(accessKeyId: string, secretAccessKey: string, sessionToken: string)

  /** One shell assignment: `export NAME=VALUE`. */
  function ExportLine(name: string, value: string): string
  {
    "export " + name + "=" + value
  }

  /** The lines joined by newlines, with no newline after the last, as `"\n".join(lines)` gives them. */
  function JoinLines(lines: seq<string>): string
  {
    if |lines| == 0 then ""
    else if |lines| == 1 then lines[0]
    else lines[0] + "\n" + JoinLines(lines[1..])
  }

  /** The text cut at every newline, as `text.split("\n")` gives it: never empty. */
  function SplitLines(text: string): (lines: seq<string>)
    ensures |lines| >= 1
  {
    if text == [] then [""]
    else
      var rest := SplitLines(text[1..]);
      if text[0] == '\n' then [""] + rest else [[text[0]] + rest[0]] + rest[1..]
  }

  /** The variables exported, in the order they are printed. */
  function EnvarLines(creds: Credentials): seq<string>
  {
    [ ExportLine("AWS_ACCESS_KEY_ID", creds.accessKeyId),
      ExportLine("AWS_SECRET_ACCESS_KEY", creds.secretAccessKey),
      ExportLine("AWS_SESSION_TOKEN", creds.sessionToken) ]
  }

  /** The text printed for the shell to evaluate. */
  function ComposeEnvars(creds: Credentials): (text: string)
    ensures var first := ExportLine("AWS_ACCESS_KEY_ID", creds.accessKeyId);
      |text| >= |first| && text[..|first|] == first
    ensures var last := ExportLine("AWS_SESSION_TOKEN", creds.sessionToken);
      |text| >= |last| && text[|text| - |last|..] == last
  {
    var lines := EnvarLines(creds);
    assert lines[1..] == [lines[1], lines[2]] && lines[1..][1..] == [lines[2]];
    assert JoinLines(lines[1..][1..]) == lines[2];
    assert JoinLines(lines[1..]) == lines[1] + "\n" + lines[2];
    var front := lines[0] + "\n" + lines[1] + "\n";
    assert JoinLines(lines) == front + lines[2];
    assert (front + lines[2])[|front|..] == lines[2];
    JoinLines(lines)
  }

  /** A line without a newline splits to itself. */
  lemma {:induction false} SplitSingleLine(line: string)
    requires '\n' !in line
    ensures SplitLines(line) == [line]
  {
    if line != [] {
      assert line[0] != '\n' && '\n' !in line[1..];
      SplitSingleLine(line[1..]);
      assert [line[0]] + line[1..] == line;
    }
  }

  /** Splitting stops at the first newline. */
  lemma {:induction false} SplitAtFirstNewline(line: string, rest: string)
    requires '\n' !in line
    ensures SplitLines(line + "\n" + rest) == [line] + SplitLines(rest)
  {
    if line == [] {
      assert line + "\n" + rest == "\n" + rest;
      assert ("\n" + rest)[1..] == rest;
    } else {
      assert line[0] != '\n' && '\n' !in line[1..];
      SplitAtFirstNewline(line[1..], rest);
      assert (line + "\n" + rest)[1..] == line[1..] + "\n" + rest;
      assert [line[0]] + line[1..] == line;
    }
  }

  /** Splitting undoes joining, for at least one line and lines without newlines. */
  lemma {:induction false} SplitJoinLines(lines: seq<string>)
    requires |lines| >= 1
    requires forall i :: 0 <= i < |lines| ==> '\n' !in lines[i]
    ensures SplitLines(JoinLines(lines)) == lines
  {
    if |lines| == 1 {
      SplitSingleLine(lines[0]);
    } else {
      SplitJoinLines(lines[1..]);
      SplitAtFirstNewline(lines[0], JoinLines(lines[1..]));
    }
  }

  /**
   * The printed text is exactly the three export lines, in the order access key id,
   * secret access key, session token (when no value holds a newline).
   */
  lemma ComposeEnvarsLines(creds: Credentials)
    requires '\n' !in creds.accessKeyId && '\n' !in creds.secretAccessKey && '\n' !in creds.sessionToken
    ensures SplitLines(ComposeEnvars(creds)) == EnvarLines(creds)
  {
    var lines := EnvarLines(creds);
    forall i | 0 <= i < |lines|
      ensures '\n' !in lines[i]
    {
      assert lines[i][..7] == "export ";
    }
    SplitJoinLines(lines);
  }

  /** The lines for the credentials AKIA1 / secret1 / tok1. */
  lemma ExampleEnvarLines()
    ensures EnvarLines(Credentials("AKIA1", "secret1", "tok1"))
         == ["export AWS_ACCESS_KEY_ID=AKIA1", "export AWS_SECRET_ACCESS_KEY=secret1", "export AWS_SESSION_TOKEN=tok1"]
  {
    var lines := EnvarLines(Credentials("AKIA1", "secret1", "tok1"));
    assert lines[0] == "export AWS_ACCESS_KEY_ID=AKIA1";
    assert lines[1] == "export AWS_SECRET_ACCESS_KEY=secret1";
    assert lines[2] == "export AWS_SESSION_TOKEN=tok1";
  }

  /** For the credentials AKIA1 / secret1 / tok1 the composed text is exactly three lines, with no trailing newline. */
  lemma ComposeEnvarsExample()
    ensures ComposeEnvars(Credentials("AKIA1", "secret1", "tok1"))
         == "export AWS_ACCESS_KEY_ID=AKIA1" + "\n" + "export AWS_SECRET_ACCESS_KEY=secret1" + "\n"
            + "export AWS_SESSION_TOKEN=tok1"
  {
    var lines := EnvarLines(Credentials("AKIA1", "secret1", "tok1"));
    ExampleEnvarLines();
    assert JoinLines(lines[1..][1..]) == lines[2];
    assert JoinLines(lines[1..]) == lines[1] + "\n" + lines[2];
  }
}
