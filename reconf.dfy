/** lib/reconf.go: the ssh_config(5) `Host` block of one entry, the
    legacy ProxyJump string built from a bastion's tags, and the config
    text as the blocks of all entries one after the other. */
module Reconf {
  import opened Strings
  import opened Types
  import opened Util
  import opened Sequences

  /** The lines ConfigFormat collects before joining them with "\n". */
  function ConfigLines(e: SSHEntry): (lines: seq<string>)
    ensures |lines| == 3 + (if e.user != "" then 1 else 0) + (if e.proxyJump != "" then 1 else 0)
                         + (if e.port != "" then 1 else 0)
    ensures lines[0] == "Host " + Join(e.names, " ")
    ensures lines[|lines| - 2] == "    Hostname " + e.address && lines[|lines| - 1] == "\n"
  {
    ["Host " + Join(e.names, " ")]
    + (if e.user != "" then ["    User " + e.user] else [])
    + (if e.proxyJump != "" then ["    ProxyJump " + e.proxyJump] else [])
    + (if e.port != "" then ["    Port " + e.port] else [])
    + ["    Hostname " + e.address, "\n"]
  }

  /** `SSHEntry.ConfigFormat`. */
  function ConfigFormat(e: SSHEntry): string {
    Join(ConfigLines(e), "\n")
  }

  /** An optional line and the newline after it: nothing for an empty
      value. */
  function OptionLine(keyword: string, value: string): string {
    if value == "" then "" else keyword + value + "\n"
  }

  lemma JoinCons(x: string, rest: seq<string>, sep: string)
    requires rest != []
    ensures Join([x] + rest, sep) == x + sep + Join(rest, sep)
  {
    assert ([x] + rest)[1..] == rest;
  }

  /** An optional line in front of at least one more. */
  lemma JoinOptional(line: string, present: bool, rest: seq<string>)
    requires rest != []
    ensures Join((if present then [line] else []) + rest, "\n")
         == (if present then line + "\n" else "") + Join(rest, "\n")
  {
    if present {
      JoinCons(line, rest, "\n");
    } else {
      assert [] + rest == rest;
    }
  }

  /** The block, written out: the Host line with the names separated by
      single spaces, then the User, ProxyJump and Port lines in that
      order and each only when its field is set, then the Hostname line and
      an empty line. */
  lemma ConfigFormatLayout(e: SSHEntry)
    ensures ConfigFormat(e) == "Host " + Join(e.names, " ") + "\n" +
      (OptionLine("    User ", e.user) +
      (OptionLine("    ProxyJump ", e.proxyJump) +
      (OptionLine("    Port ", e.port) +
      ("    Hostname " + e.address + "\n" + "\n"))))
  {
    var host := "Host " + Join(e.names, " ");
    var hostname := "    Hostname " + e.address;
    var user := if e.user != "" then ["    User " + e.user] else [];
    var jump := if e.proxyJump != "" then ["    ProxyJump " + e.proxyJump] else [];
    var port := if e.port != "" then ["    Port " + e.port] else [];
    var tail := [hostname, "\n"];
    JoinCons(hostname, ["\n"], "\n");
    JoinOptional("    Port " + e.port, e.port != "", tail);
    JoinOptional("    ProxyJump " + e.proxyJump, e.proxyJump != "", port + tail);
    JoinOptional("    User " + e.user, e.user != "", jump + (port + tail));
    ConfigLinesNested(e);
    JoinCons(host, user + (jump + (port + tail)), "\n");
  }

  lemma ConfigLinesNested(e: SSHEntry)
    ensures ConfigLines(e) == ["Host " + Join(e.names, " ")]
      + ((if e.user != "" then ["    User " + e.user] else [])
      + ((if e.proxyJump != "" then ["    ProxyJump " + e.proxyJump] else [])
      + ((if e.port != "" then ["    Port " + e.port] else [])
      + ["    Hostname " + e.address, "\n"])))
  {
  }

  /** Every block ends with the Hostname line and a blank line. */
  lemma ConfigFormatEnds(e: SSHEntry)
    ensures var s, h := ConfigFormat(e), "    Hostname " + e.address + "\n" + "\n";
      |h| <= |s| && s[|s| - |h|..] == h
  {
    ConfigFormatLayout(e);
    var h := "    Hostname " + e.address + "\n" + "\n";
    var front := "Host " + Join(e.names, " ") + "\n" + (OptionLine("    User ", e.user)
      + (OptionLine("    ProxyJump ", e.proxyJump) + OptionLine("    Port ", e.port)));
    assert ConfigFormat(e) == front + h;
  }

  lemma RegroupOneOption(host: string, nl: string, a: string, last: string)
    ensures host + nl + (a + nl + ("" + ("" + (last + nl + nl)))) == host + nl + a + nl + last + nl + nl
  {
  }

  lemma RegroupThreeOptions(host: string, nl: string, a: string, b: string, c: string, last: string)
    ensures host + nl + (a + nl + (b + nl + (c + nl + (last + nl + nl))))
         == host + nl + a + nl + b + nl + c + nl + last + nl + nl
  {
  }

  lemma TestNames()
    ensures "Host " + Join(["i-123456789", "some_custom_name"], " ") == "Host i-123456789 some_custom_name"
  {
    JoinCons("i-123456789", ["some_custom_name"], " ");
    assert ["i-123456789", "some_custom_name"] == ["i-123456789"] + ["some_custom_name"];
  }

  /** The block of an entry with a User and neither ProxyJump nor Port. */
  lemma ConfigFormatUserOnly(e: SSHEntry)
    requires e.user != "" && e.proxyJump == "" && e.port == ""
    ensures ConfigFormat(e) == "Host " + Join(e.names, " ") + "\n"
      + ("    User " + e.user) + "\n"
      + ("    Hostname " + e.address) + "\n"
      + "\n"
  {
    ConfigFormatLayout(e);
    RegroupOneOption("Host " + Join(e.names, " "), "\n", "    User " + e.user, "    Hostname " + e.address);
  }

  lemma BasicEntryText(h: string, u: string, a: string)
    requires h == "Host i-123456789 some_custom_name" && u == "    User ec2-user" && a == "    Hostname 54.54.54.54"
    ensures h + "\n" + u + "\n" + a + "\n" + "\n"
         == "Host i-123456789 some_custom_name" + "\n"
          + "    User ec2-user" + "\n"
          + "    Hostname 54.54.54.54" + "\n"
          + "\n"
  {
  }

  lemma BasicEntryBlock(e: SSHEntry)
    requires e == SSHEntry(ProfileConfig("", "", ""), "54.54.54.54", "", "", "", "ec2-user",
                           ["i-123456789", "some_custom_name"])
    ensures ConfigFormat(e)
         == "Host i-123456789 some_custom_name" + "\n"
          + "    User ec2-user" + "\n"
          + "    Hostname 54.54.54.54" + "\n"
          + "\n"
  {
    ConfigFormatUserOnly(e);
    TestNames();
    assert "    User " + e.user == "    User ec2-user";
    assert "    Hostname " + e.address == "    Hostname 54.54.54.54";
    BasicEntryText("Host " + Join(e.names, " "), "    User " + e.user, "    Hostname " + e.address);
  }

  /** The first test vector of lib/reconf_test.go, a basic entry, line by
      line. */
  lemma BasicEntryVector()
    ensures ConfigFormat(SSHEntry(ProfileConfig("", "", ""), "54.54.54.54", "", "", "", "ec2-user",
                                  ["i-123456789", "some_custom_name"]))
         == "Host i-123456789 some_custom_name" + "\n"
          + "    User ec2-user" + "\n"
          + "    Hostname 54.54.54.54" + "\n"
          + "\n"
  {
    BasicEntryBlock(SSHEntry(ProfileConfig("", "", ""), "54.54.54.54", "", "", "", "ec2-user",
                             ["i-123456789", "some_custom_name"]));
  }

  /** The block of an entry whose User, ProxyJump and Port are all set. */
  lemma ConfigFormatAllOptions(e: SSHEntry)
    requires e.user != "" && e.proxyJump != "" && e.port != ""
    ensures ConfigFormat(e) == "Host " + Join(e.names, " ") + "\n"
      + ("    User " + e.user) + "\n"
      + ("    ProxyJump " + e.proxyJump) + "\n"
      + ("    Port " + e.port) + "\n"
      + ("    Hostname " + e.address) + "\n"
      + "\n"
  {
    ConfigFormatLayout(e);
    RegroupThreeOptions("Host " + Join(e.names, " "), "\n", "    User " + e.user, "    ProxyJump " + e.proxyJump,
                        "    Port " + e.port, "    Hostname " + e.address);
  }

  lemma JumpHostEntryLines(e: SSHEntry)
    requires e == SSHEntry(ProfileConfig("", "", ""), "54.54.54.54", "", "jumphost", "2222", "ubuntu",
                           ["i-123456789", "some_custom_name"])
    ensures "    User " + e.user == "    User ubuntu"
    ensures "    ProxyJump " + e.proxyJump == "    ProxyJump jumphost"
    ensures "    Port " + e.port == "    Port 2222"
    ensures "    Hostname " + e.address == "    Hostname 54.54.54.54"
  {
  }

  lemma JumpHostEntryText(h: string, u: string, j: string, p: string, a: string)
    requires h == "Host i-123456789 some_custom_name" && u == "    User ubuntu" && j == "    ProxyJump jumphost"
    requires p == "    Port 2222" && a == "    Hostname 54.54.54.54"
    ensures h + "\n" + u + "\n" + j + "\n" + p + "\n" + a + "\n" + "\n"
         == "Host i-123456789 some_custom_name" + "\n"
          + "    User ubuntu" + "\n"
          + "    ProxyJump jumphost" + "\n"
          + "    Port 2222" + "\n"
          + "    Hostname 54.54.54.54" + "\n"
          + "\n"
  {
  }

  lemma JumpHostEntryBlock(e: SSHEntry)
    requires e == SSHEntry(ProfileConfig("", "", ""), "54.54.54.54", "", "jumphost", "2222", "ubuntu",
                           ["i-123456789", "some_custom_name"])
    ensures ConfigFormat(e)
         == "Host i-123456789 some_custom_name" + "\n"
          + "    User ubuntu" + "\n"
          + "    ProxyJump jumphost" + "\n"
          + "    Port 2222" + "\n"
          + "    Hostname 54.54.54.54" + "\n"
          + "\n"
  {
    ConfigFormatAllOptions(e);
    TestNames();
    JumpHostEntryLines(e);
    JumpHostEntryText("Host " + Join(e.names, " "), "    User " + e.user, "    ProxyJump " + e.proxyJump,
                      "    Port " + e.port, "    Hostname " + e.address);
  }

  /** The second test vector: an entry with a jump host and a port. */
  lemma JumpHostEntryVector()
    ensures ConfigFormat(SSHEntry(ProfileConfig("", "", ""), "54.54.54.54", "", "jumphost", "2222", "ubuntu",
                                  ["i-123456789", "some_custom_name"]))
         == "Host i-123456789 some_custom_name" + "\n"
          + "    User ubuntu" + "\n"
          + "    ProxyJump jumphost" + "\n"
          + "    Port 2222" + "\n"
          + "    Hostname 54.54.54.54" + "\n"
          + "\n"
  {
    JumpHostEntryBlock(SSHEntry(ProfileConfig("", "", ""), "54.54.54.54", "", "jumphost", "2222", "ubuntu",
                                ["i-123456789", "some_custom_name"]));
  }

  // ---------------------------------------------------------------------
  // The legacy ProxyJump rule

  /** The jump host string of the legacy rule: the bastion's public IP,
      with its raw "x-aws-ssh-user" tag value and "@" in front and ":" with
      its raw "x-aws-ssh-port" tag value behind, each only when present. */
  function LegacyJump(bastion: Instance): string {
    var user := TagValue(bastion.tags, "x-aws-ssh-user");
    var port := TagValue(bastion.tags, "x-aws-ssh-port");
    (if user != "" then user + "@" else "") + bastion.publicIp + (if port != "" then ":" + port else "")
  }

  /** The legacy rule as the source states it, one reassignment at a time. */
  method LegacyProxyJump(bastion: Instance) returns (proxyJump: string)
    ensures proxyJump == LegacyJump(bastion)
  {
    var bastionUser := GetTagValue("x-aws-ssh-user", bastion.tags, false);
    var bastionPort := GetTagValue("x-aws-ssh-port", bastion.tags, false);
    proxyJump := bastion.publicIp;
    if bastionUser != "" {
      proxyJump := bastionUser + "@" + proxyJump;
    }
    if bastionPort != "" {
      proxyJump := proxyJump + ":" + bastionPort;
    }
  }

  /** The parts of a legacy jump string can be read back: the user before
      the public IP, the port after it, and without either tag it is the
      bare public IP. */
  lemma LegacyJumpParts(bastion: Instance)
    ensures var j, user, port := LegacyJump(bastion),
        TagValue(bastion.tags, "x-aws-ssh-user"), TagValue(bastion.tags, "x-aws-ssh-port");
      var front := if user != "" then |user| + 1 else 0;
      var back := if port != "" then |port| + 1 else 0;
      && |j| == front + |bastion.publicIp| + back
      && j[front..front + |bastion.publicIp|] == bastion.publicIp
      && (user != "" ==> j[..|user|] == user && j[|user|] == '@')
      && (port != "" ==> j[|j| - |port| - 1] == ':' && j[|j| - |port|..] == port)
      && (user == "" && port == "" ==> j == bastion.publicIp)
  {
    var user := TagValue(bastion.tags, "x-aws-ssh-user");
    var port := TagValue(bastion.tags, "x-aws-ssh-port");
    var u := if user != "" then user + "@" else "";
    var p := if port != "" then ":" + port else "";
    var j := LegacyJump(bastion);
    assert j == u + bastion.publicIp + p;
    assert j[|u|..|u| + |bastion.publicIp|] == bastion.publicIp;
    if user != "" {
      assert j[..|user|] == user;
    }
    if port != "" {
      assert j[|j| - |port|..] == port;
    }
  }

  // ---------------------------------------------------------------------
  // The config text

  /** The blocks of the entries, in entry order. */
  function Render(entries: seq<SSHEntry>): string {
    FlatMap(entries, ConfigFormat)
  }

  /** The write loop: the content that reaches the temporary file. */
  method WriteConfig(entries: seq<SSHEntry>) returns (content: string)
    ensures content == Render(entries)
  {
    content := "";
    for i := 0 to |entries|
      invariant content == Render(entries[..i])
    {
      content := content + ConfigFormat(entries[i]);
      assert entries[..i + 1][..i] == entries[..i];
    }
    assert entries[..|entries|] == entries;
  }

  /** Rendering distributes over concatenation: the config of two lists
      of entries is the config of the first followed by that of the
      second. */
  lemma RenderAppend(a: seq<SSHEntry>, b: seq<SSHEntry>)
    ensures Render(a + b) == Render(a) + Render(b)
  {
    FlatMapAppend(a, b, ConfigFormat);
  }

  /** Entry i's block sits between the blocks of the entries before it
      and those after it. */
  lemma RenderBlock(entries: seq<SSHEntry>, i: nat)
    requires i < |entries|
    ensures Render(entries) == Render(entries[..i]) + ConfigFormat(entries[i]) + Render(entries[i + 1..])
  {
    FlatMapAt(entries, ConfigFormat, i);
  }
}
