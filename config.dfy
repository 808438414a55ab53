/**
 * The client's configuration file (config.go): newline-separated `Server <host>` and
 * `AdminKey <key>` lines, read by `loadConfig` and written by `config.save`.
 * The file system is not modelled: the loader receives the outcome of reading the file.
 */
module Config {
  import opened Wrappers
  import opened Strings

  /** The two persisted settings. */
  datatype Config = Config(server: string, apiKey: string)

  const ServerPrefix := "Server "
  const AdminKeyPrefix := "AdminKey "

  /** What a `<prefix><value>` line carries: the first `prefix` removed, then white space trimmed. */
  function Value(line: string, prefix: string): string {
    TrimSpace(ReplaceFirst(line, prefix, ""))
  }

  /** The value carried by the last of `lines` that starts with `prefix`, if any does. */
  function LastValue(lines: seq<string>, prefix: string): Option<string> {
    if lines == [] then None
    else if HasPrefix(lines[|lines| - 1], prefix) then Some(Value(lines[|lines| - 1], prefix))
    else LastValue(lines[..|lines| - 1], prefix)
  }

  /** The configuration a file with these lines describes: every field is taken from the last line of its key, and is empty when there is none. */
  function Parsed(lines: seq<string>): Config {
    Config(LastValue(lines, ServerPrefix).GetOr(""), LastValue(lines, AdminKeyPrefix).GetOr(""))
  }

  /** No line starts with both keys. */
  lemma PrefixesExclusive(line: string)
    ensures !(HasPrefix(line, AdminKeyPrefix) && HasPrefix(line, ServerPrefix))
  {
    if HasPrefix(line, AdminKeyPrefix) {
      assert line[0] == AdminKeyPrefix[0] == 'A';
    }
  }

  /**
   * `loadConfig` after the file has been read: the scanner loop overwrites `apiKey` on every
   * `AdminKey ` line and `server` on every `Server ` line; a read failure is reported with the path.
   */
  method LoadConfig(path: string, read: Result<string, string>) returns (r: Result<Config, string>)
    ensures read.Failure? ==> r == Failure("failed to load " + path + ": " + read.error)
    ensures read.Success? ==> r == Success(Parsed(Lines(read.value)))
  {
    var c := Config("", "");
    if read.Failure? {
      return Failure("failed to load " + path + ": " + read.error);
    }
    var lines := Lines(read.value);
    var i := 0;
    while i < |lines|
      invariant 0 <= i <= |lines|
      invariant c == Parsed(lines[..i])
    {
      var text := lines[i];
      assert lines[..i + 1] == lines[..i] + [text];
      ghost var seen := lines[..i];
      i := i + 1;
      if HasPrefix(text, AdminKeyPrefix) {
        AdminKeyLine(seen, text);
        RemovePrefix(text, AdminKeyPrefix);
        c := c.(apiKey := TrimSpace(ReplaceFirst(text, AdminKeyPrefix, "")));
        continue;
      }
      if HasPrefix(text, ServerPrefix) {
        ServerLine(seen, text);
        RemovePrefix(text, ServerPrefix);
        c := c.(server := TrimSpace(ReplaceFirst(text, ServerPrefix, "")));
        continue;
      }
      OtherLine(seen, text);
    }
    assert lines[..i] == lines;
    return Success(c);
  }

  /** An `AdminKey ` line sets the key to the rest of the line, trimmed, and leaves the server alone. */
  lemma AdminKeyLine(lines: seq<string>, line: string)
    requires HasPrefix(line, AdminKeyPrefix)
    ensures Parsed(lines + [line]) == Parsed(lines).(apiKey := TrimSpace(line[|AdminKeyPrefix|..]))
  {
    var all := lines + [line];
    assert all[..|all| - 1] == lines;
    assert all[|all| - 1] == line;
    PrefixesExclusive(line);
    RemovePrefix(line, AdminKeyPrefix);
    assert Value(line, AdminKeyPrefix) == TrimSpace(line[|AdminKeyPrefix|..]);
  }

  /** A `Server ` line sets the server to the rest of the line, trimmed, and leaves the key alone. */
  lemma ServerLine(lines: seq<string>, line: string)
    requires HasPrefix(line, ServerPrefix)
    ensures Parsed(lines + [line]) == Parsed(lines).(server := TrimSpace(line[|ServerPrefix|..]))
  {
    var all := lines + [line];
    assert all[..|all| - 1] == lines;
    assert all[|all| - 1] == line;
    PrefixesExclusive(line);
    RemovePrefix(line, ServerPrefix);
    assert Value(line, ServerPrefix) == TrimSpace(line[|ServerPrefix|..]);
  }

  /** Any other line, `Server` without its space among them, changes nothing. */
  lemma OtherLine(lines: seq<string>, line: string)
    requires !HasPrefix(line, AdminKeyPrefix) && !HasPrefix(line, ServerPrefix)
    ensures Parsed(lines + [line]) == Parsed(lines)
  {
    var all := lines + [line];
    assert all[..|all| - 1] == lines;
  }

  /** A key that no line carries leaves its field empty. */
  lemma {:induction false} AbsentKey(lines: seq<string>, prefix: string)
    requires forall k :: 0 <= k < |lines| ==> !HasPrefix(lines[k], prefix)
    ensures LastValue(lines, prefix) == None
  {
    if lines != [] {
      var init := lines[..|lines| - 1];
      assert forall k :: 0 <= k < |init| ==> init[k] == lines[k];
      AbsentKey(init, prefix);
    }
  }

  /** When a key occurs on several lines, the last occurrence wins. */
  lemma {:induction false} LastOccurrenceWins(lines: seq<string>, prefix: string, k: nat)
    requires k < |lines| && HasPrefix(lines[k], prefix)
    requires forall j :: k < j < |lines| ==> !HasPrefix(lines[j], prefix)
    ensures LastValue(lines, prefix) == Some(TrimSpace(lines[k][|prefix|..]))
    decreases |lines|
  {
    RemovePrefix(lines[k], prefix);
    if k < |lines| - 1 {
      var init := lines[..|lines| - 1];
      assert forall j :: 0 <= j < |init| ==> init[j] == lines[j];
      LastOccurrenceWins(init, prefix, k);
    }
  }

  /** The content `config.save` writes. */
  function SaveContent(c: Config): string {
    ServerPrefix + c.server + "\n" + AdminKeyPrefix + c.apiKey + "\n"
  }

  /** The scanner splits saved content into its two lines. */
  lemma SavedLines(c: Config)
    requires '\n' !in c.server && '\n' !in c.apiKey
    ensures Lines(SaveContent(c)) == [ServerPrefix + DropCR(c.server), AdminKeyPrefix + DropCR(c.apiKey)]
  {
    var a := ServerPrefix + c.server;
    var b := AdminKeyPrefix + c.apiKey;
    var rest := b + "\n" + "";
    assert SaveContent(c) == a + "\n" + rest;
    LinesOfTerminated(a, rest);
    LinesOfTerminated(b, "");
    DropCRAfter(ServerPrefix, c.server);
    DropCRAfter(AdminKeyPrefix, c.apiKey);
  }

  /** Reading back saved content yields the saved fields with their surrounding white space trimmed. */
  lemma LoadSaved(c: Config)
    requires '\n' !in c.server && '\n' !in c.apiKey
    ensures Parsed(Lines(SaveContent(c))) == Config(TrimSpace(c.server), TrimSpace(c.apiKey))
  {
    SavedLines(c);
    var la, lb := ServerPrefix + DropCR(c.server), AdminKeyPrefix + DropCR(c.apiKey);
    assert la[..|ServerPrefix|] == ServerPrefix && la[|ServerPrefix|..] == DropCR(c.server);
    assert lb[..|AdminKeyPrefix|] == AdminKeyPrefix && lb[|AdminKeyPrefix|..] == DropCR(c.apiKey);
    ServerLine([], la);
    AdminKeyLine([la], lb);
    assert [] + [la] == [la] && [la] + [lb] == [la, lb];
    TrimSpaceDropCR(c.server);
    TrimSpaceDropCR(c.apiKey);
  }

  /** Saving then loading gives back the configuration when neither field holds a newline or surrounding white space. */
  lemma RoundTrip(c: Config)
    requires '\n' !in c.server && '\n' !in c.apiKey
    requires Trimmed(c.server) && Trimmed(c.apiKey)
    ensures Parsed(Lines(SaveContent(c))) == c
  {
    LoadSaved(c);
    TrimSpaceOfTrimmed(c.server);
    TrimSpaceOfTrimmed(c.apiKey);
  }
}
