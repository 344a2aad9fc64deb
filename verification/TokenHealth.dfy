/** The probe that tells a backend whether its token is present. */
module TokenHealth {
  import opened Common

  const CERT_OBJECT_MARK: string := "Certificate Object"

  /** What a run of the health command comes to; `blank` when the output is nothing but white space. */
  datatype Probe = ProbeError | Output(text: string, blank: bool)

  datatype HealthError = NoHealthCommand | CommandFailed | NoToken

  /** The default probe lists certificates, and there is none without a module. */
  function DefaultTokenHealth(modulePath: string): seq<string> {
    if modulePath == "" then []
    else ["pkcs11-tool", "--module", modulePath, "--list-objects", "--type", "cert"]
  }

  predicate TypeCertAt(command: seq<string>, i: int) {
    0 <= i < |command| - 1 && command[i] == "--type" && command[i + 1] == "cert"
  }

  /** The command asks for certificate objects. */
  predicate AsksForCertificates(command: seq<string>) {
    "--list-objects" in command && exists i :: 0 <= i < |command| - 1 && TypeCertAt(command, i)
  }

  predicate MarkAt(text: string, mark: string, k: int) {
    0 <= k <= |text| - |mark| && text[k..k + |mark|] == mark
  }

  predicate Contains(text: string, mark: string) {
    exists k :: 0 <= k <= |text| - |mark| && MarkAt(text, mark, k)
  }

  method ListsCertificates(command: seq<string>) returns (lists: bool)
    ensures lists <==> AsksForCertificates(command)
  {
    var hasList, hasCert := false, false;
    for i := 0 to |command|
      invariant hasList <==> "--list-objects" in command[..i]
      invariant hasCert <==> exists j :: 0 <= j < i && TypeCertAt(command, j)
    {
      if command[i] == "--list-objects" {
        hasList := true;
      }
      if command[i] == "--type" && i + 1 < |command| && command[i + 1] == "cert" {
        assert TypeCertAt(command, i);
        hasCert := true;
      }
      assert command[..i + 1] == command[..i] + [command[i]];
    }
    assert command[..|command|] == command;
    lists := hasList && hasCert;
  }

  /** Healthy exactly when there is a command, it succeeds, says something, and shows a certificate if it
      was asked for certificates. */
  method RunHealth(command: seq<string>, run: seq<string> -> Probe) returns (error: Option<HealthError>)
    ensures error == Some(NoHealthCommand) <==> command == []
    ensures error == Some(CommandFailed) <==> command != [] && run(command).ProbeError?
    ensures error == None <==> command != [] && run(command).Output? && !run(command).blank
                               && (AsksForCertificates(command) ==> Contains(run(command).text, "Certificate Object"))
  {
    if |command| == 0 {
      return Some(NoHealthCommand);
    }
    var probe := run(command);
    if probe.ProbeError? {
      return Some(CommandFailed);
    }
    if probe.blank {
      return Some(NoToken);
    }
    var lists := ListsCertificates(command);
    if lists && !Contains(probe.text, CERT_OBJECT_MARK) {
      return Some(NoToken);
    }
    return None;
  }

  lemma ContainsMeans(text: string, mark: string)
    ensures Contains(text, mark) <==> exists before, after :: text == before + mark + after
  {
    if Contains(text, mark) {
      var k :| 0 <= k <= |text| - |mark| && MarkAt(text, mark, k);
      assert text == text[..k] + mark + text[k + |mark|..];
    }
    if before, after :| text == before + mark + after {
      assert MarkAt(text, mark, |before|);
    }
  }

  /** The default probe always asks for certificates, so an unplugged token cannot pass it. */
  lemma DefaultProbeAsksForCertificates(modulePath: string)
    ensures DefaultTokenHealth(modulePath) == [] <==> modulePath == ""
    ensures modulePath != "" ==>
              DefaultTokenHealth(modulePath)
              == ["pkcs11-tool", "--module", modulePath, "--list-objects", "--type", "cert"]
    ensures modulePath != "" ==> AsksForCertificates(DefaultTokenHealth(modulePath))
  {
    if modulePath != "" {
      var command := DefaultTokenHealth(modulePath);
      assert command[3] == "--list-objects";
      assert TypeCertAt(command, 4);
    }
  }
}
