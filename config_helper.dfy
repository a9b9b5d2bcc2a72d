/** config_helper.py: the two ways of entering the Bemfa MQTT login and the
    line-by-line rewrite of the `MQTT_CONFIG` block of src/config.py. Console
    input is given as the typed text; the file is its content (None when it
    does not exist) and the text written back. */
module ConfigHelper {
  import opened Strings

  /** The config dict both login helpers return. */
  datatype MqttLogin = MqttLogin(clientId: string, username: string, password: string, usePrivateKey: bool)

  const Placeholder: string := "your_"

  /** `configure_private_key_login`: the stripped key must be non-empty and
      not a `your_` placeholder; the key is the client id, with no user name
      or password. */
  function ConfigurePrivateKeyLogin(input: string): (r: Option<MqttLogin>)
    ensures r.Some? <==> Strip(input) != "" && !StartsWith(Strip(input), Placeholder)
    ensures r.Some? ==> r.value == MqttLogin(Strip(input), "", "", true)
  {
    var privateKey := Strip(input);
    if privateKey == "" then None
    else if StartsWith(privateKey, Placeholder) then None
    else Some(MqttLogin(privateKey, "", "", true))
  }

  /** A field that is filled in and not a placeholder. */
  predicate Usable(field: string) {
    field != "" && !StartsWith(field, Placeholder)
  }

  /** `configure_traditional_login`: all three stripped fields must be
      non-empty and none a `your_` placeholder. */
  function ConfigureTraditionalLogin(clientIdInput: string, usernameInput: string, passwordInput: string): (r: Option<MqttLogin>)
    ensures r.Some? <==> Usable(Strip(clientIdInput)) && Usable(Strip(usernameInput)) && Usable(Strip(passwordInput))
    ensures r.Some? ==> r.value == MqttLogin(Strip(clientIdInput), Strip(usernameInput), Strip(passwordInput), false)
  {
    var clientId := Strip(clientIdInput);
    var username := Strip(usernameInput);
    var password := Strip(passwordInput);
    if clientId == "" || username == "" || password == "" then None
    else if StartsWith(clientId, Placeholder) || StartsWith(username, Placeholder) || StartsWith(password, Placeholder) then None
    else Some(MqttLogin(clientId, username, password, false))
  }

  /** A private-key login never carries a user name or password, a
      traditional one always does. */
  lemma LoginKinds(key: string, c: string, u: string, p: string)
    ensures ConfigurePrivateKeyLogin(key).Some? ==>
      ConfigurePrivateKeyLogin(key).value.usePrivateKey && ConfigurePrivateKeyLogin(key).value.username == ""
    ensures ConfigureTraditionalLogin(c, u, p).Some? ==>
      !ConfigureTraditionalLogin(c, u, p).value.usePrivateKey && ConfigureTraditionalLogin(c, u, p).value.username != ""
  {
  }

  const Header: string := "MQTT_CONFIG = {"

  /** Python's `str(True)` and `str(False)`. */
  function PyBool(b: bool): string {
    if b then "True" else "False"
  }

  /** The seven lines written after the header. */
  function Generated(login: MqttLogin): (r: seq<string>)
    ensures |r| == 7
  {
    [ "    'broker': 'bemfa.com',  # 巴法云MQTT服务器地址",
      "    'port': 9501,           # 巴法云MQTT端口",
      "    'client_id': '" + login.clientId + "',  # 巴法云私钥或客户端ID",
      "    'username': '" + login.username + "',    # 用户名",
      "    'password': '" + login.password + "',    # 密码",
      "    'keep_alive': 60,",
      "    'use_private_key': " + PyBool(login.usePrivateKey) + "  # 是否使用私钥登录" ]
  }

  /** The line opens the block: it contains the marker. */
  predicate IsHeader(line: string, marker: string) {
    Contains(line, marker)
  }

  /** The line closes the block: stripped, it is a lone `}`. */
  predicate IsClose(line: string) {
    Strip(line) == "}"
  }

  /** What one line contributes, given whether the block is open. */
  function LineOutput(inBlock: bool, line: string, marker: string, generated: seq<string>): seq<string> {
    if IsHeader(line, marker) then [line] + generated
    else if inBlock && IsClose(line) then [line]
    else if !inBlock then [line]
    else []
  }

  /** Whether the block is open after the line. */
  function LineState(inBlock: bool, line: string, marker: string): bool {
    if IsHeader(line, marker) then true
    else if inBlock && IsClose(line) then false
    else inBlock
  }

  /** Whether the block is open after the lines, from state `s`. */
  function StateAfter(s: bool, lines: seq<string>, marker: string): bool
    decreases |lines|
  {
    if lines == [] then s else StateAfter(LineState(s, lines[0], marker), lines[1..], marker)
  }

  /** The lines written for the given lines, from state `s`. */
  function Rewrite(s: bool, lines: seq<string>, marker: string, generated: seq<string>): seq<string>
    decreases |lines|
  {
    if lines == [] then []
    else LineOutput(s, lines[0], marker, generated) + Rewrite(LineState(s, lines[0], marker), lines[1..], marker, generated)
  }

  /** The state after two parts is the state after the second, started
      from the state the first leaves. */
  lemma {:induction false} StateAfterAppend(s: bool, a: seq<string>, b: seq<string>, marker: string)
    ensures StateAfter(s, a + b, marker) == StateAfter(StateAfter(s, a, marker), b, marker)
    decreases |a|
  {
    if a == [] {
      assert a + b == b;
    } else {
      assert (a + b)[0] == a[0];
      assert (a + b)[1..] == a[1..] + b;
      StateAfterAppend(LineState(s, a[0], marker), a[1..], b, marker);
    }
  }

  /** Rewriting goes line by line: the lines of two parts rewrite as the
      first part followed by the second from the state the first leaves. */
  lemma {:induction false} RewriteAppend(s: bool, a: seq<string>, b: seq<string>, marker: string, generated: seq<string>)
    ensures StateAfter(s, a + b, marker) == StateAfter(StateAfter(s, a, marker), b, marker)
    ensures Rewrite(s, a + b, marker, generated) ==
      Rewrite(s, a, marker, generated) + Rewrite(StateAfter(s, a, marker), b, marker, generated)
    decreases |a|
  {
    StateAfterAppend(s, a, b, marker);
    if a == [] {
      assert a + b == b;
    } else {
      var t := LineState(s, a[0], marker);
      RewriteAppend(t, a[1..], b, marker, generated);
      assert (a + b)[0] == a[0];
      assert (a + b)[1..] == a[1..] + b;
      var out := LineOutput(s, a[0], marker, generated);
      var ra := Rewrite(t, a[1..], marker, generated);
      var rb := Rewrite(StateAfter(t, a[1..], marker), b, marker, generated);
      assert StateAfter(s, a, marker) == StateAfter(t, a[1..], marker);
      assert Rewrite(s, a, marker, generated) == out + ra;
      assert Rewrite(s, a + b, marker, generated) == out + (ra + rb);
      ConcatAssoc(out, ra, rb);
    }
  }

  /** Outside the block, lines without the marker are copied unchanged. */
  lemma {:induction false} CopiedOutside(lines: seq<string>, marker: string, generated: seq<string>)
    requires forall i :: 0 <= i < |lines| ==> !IsHeader(lines[i], marker)
    ensures !StateAfter(false, lines, marker) && Rewrite(false, lines, marker, generated) == lines
    decreases |lines|
  {
    if lines != [] {
      CopiedOutside(lines[1..], marker, generated);
    }
  }

  /** Inside the block, lines that neither open nor close it are dropped. */
  lemma {:induction false} DroppedInside(lines: seq<string>, marker: string, generated: seq<string>)
    requires forall i :: 0 <= i < |lines| ==> !IsHeader(lines[i], marker) && !IsClose(lines[i])
    ensures StateAfter(true, lines, marker) && Rewrite(true, lines, marker, generated) == []
    decreases |lines|
  {
    if lines != [] {
      DroppedInside(lines[1..], marker, generated);
    }
  }

  /** A single line rewrites to what it contributes. */
  lemma OneLine(s: bool, line: string, marker: string, generated: seq<string>)
    ensures StateAfter(s, [line], marker) == LineState(s, line, marker)
    ensures Rewrite(s, [line], marker, generated) == LineOutput(s, line, marker, generated)
  {
    assert [line][1..] == [];
  }

  /** Two parts whose rewrites are known rewrite to the two results in turn. */
  lemma AppendKnown(s: bool, a: seq<string>, b: seq<string>, sa: bool, ra: seq<string>, sb: bool, rb: seq<string>,
                    marker: string, generated: seq<string>)
    requires StateAfter(s, a, marker) == sa && Rewrite(s, a, marker, generated) == ra
    requires StateAfter(sa, b, marker) == sb && Rewrite(sa, b, marker, generated) == rb
    ensures StateAfter(s, a + b, marker) == sb && Rewrite(s, a + b, marker, generated) == ra + rb
  {
    RewriteAppend(s, a, b, marker, generated);
  }

  /** The lines up to the header: copied, then the header and the generated
      lines, with the block open. */
  lemma UpToHeader(before: seq<string>, header: string, marker: string, generated: seq<string>)
    requires forall i :: 0 <= i < |before| ==> !IsHeader(before[i], marker)
    requires IsHeader(header, marker)
    ensures StateAfter(false, before + [header], marker)
    ensures Rewrite(false, before + [header], marker, generated) == before + [header] + generated
  {
    CopiedOutside(before, marker, generated);
    OneLine(false, header, marker, generated);
    AppendKnown(false, before, [header], false, before, true, [header] + generated, marker, generated);
    assert before + ([header] + generated) == before + [header] + generated;
  }

  /** The old body and the closing line: only the closing line is written,
      and the block is closed. */
  lemma BodyAndClose(body: seq<string>, close: string, marker: string, generated: seq<string>)
    requires forall i :: 0 <= i < |body| ==> !IsHeader(body[i], marker) && !IsClose(body[i])
    requires !IsHeader(close, marker) && IsClose(close)
    ensures !StateAfter(true, body + [close], marker)
    ensures Rewrite(true, body + [close], marker, generated) == [close]
  {
    DroppedInside(body, marker, generated);
    OneLine(true, close, marker, generated);
    AppendKnown(true, body, [close], true, [], false, [close], marker, generated);
  }

  /** A file with one block: the header line is kept, the generated lines
      replace the old body, the closing line is kept, and the lines before
      and after are copied as they are. */
  lemma BlockReplaced(before: seq<string>, header: string, body: seq<string>, close: string, after: seq<string>,
                      marker: string, generated: seq<string>)
    requires forall i :: 0 <= i < |before| ==> !IsHeader(before[i], marker)
    requires IsHeader(header, marker)
    requires forall i :: 0 <= i < |body| ==> !IsHeader(body[i], marker) && !IsClose(body[i])
    requires !IsHeader(close, marker) && IsClose(close)
    requires forall i :: 0 <= i < |after| ==> !IsHeader(after[i], marker)
    ensures Rewrite(false, before + [header] + body + [close] + after, marker, generated) ==
      before + [header] + generated + [close] + after
  {
    var p1 := before + [header];
    var r1 := before + [header] + generated;
    UpToHeader(before, header, marker, generated);
    BodyAndClose(body, close, marker, generated);
    AppendKnown(false, p1, body + [close], true, r1, false, [close], marker, generated);
    CopiedOutside(after, marker, generated);
    AppendKnown(false, p1 + (body + [close]), after, false, r1 + [close], false, after, marker, generated);
    assert p1 + (body + [close]) == before + [header] + body + [close];
  }

  /** A block that never closes: every line after the header is dropped. */
  lemma UnclosedBlockDropsRest(before: seq<string>, header: string, rest: seq<string>, marker: string, generated: seq<string>)
    requires forall i :: 0 <= i < |before| ==> !IsHeader(before[i], marker)
    requires IsHeader(header, marker)
    requires forall i :: 0 <= i < |rest| ==> !IsHeader(rest[i], marker) && !IsClose(rest[i])
    ensures Rewrite(false, before + [header] + rest, marker, generated) == before + [header] + generated
  {
    var r1 := before + [header] + generated;
    UpToHeader(before, header, marker, generated);
    DroppedInside(rest, marker, generated);
    AppendKnown(false, before + [header], rest, true, r1, true, [], marker, generated);
    assert r1 + [] == r1;
  }

  /** `update_config_file`: `file` is the content of src/config.py, None when
      it does not exist. The lines are rewritten in one pass and joined
      back with newlines. */
  method UpdateConfigFile(file: Option<string>, login: MqttLogin) returns (ok: bool, written: Option<string>)
    ensures file.None? ==> !ok && written.None?
    ensures file.Some? ==> ok && written == Some(Join(Rewrite(false, Split(file.value, '\n'), Header, Generated(login)), '\n'))
  {
    if file.None? {
      return false, None;
    }
    var content := file.value;
    var lines := Split(content, '\n');
    ghost var generated := Generated(login);
    var newLines: seq<string> := [];
    var inMqttConfig := false;
    assert lines[0..] == lines;
    for k := 0 to |lines|
      invariant newLines + Rewrite(inMqttConfig, lines[k..], Header, generated) ==
        Rewrite(false, lines, Header, generated)
    {
      var line := lines[k];
      assert lines[k..][1..] == lines[k + 1..];
      ghost var before := newLines;
      ghost var rest := Rewrite(LineState(inMqttConfig, line, Header), lines[k + 1..], Header, generated);
      ghost var out := LineOutput(inMqttConfig, line, Header, generated);
      assert Rewrite(inMqttConfig, lines[k..], Header, generated) == out + rest;
      if Contains(line, Header) {
        inMqttConfig := true;
        newLines := newLines + [line];
        newLines := newLines + Generated(login);
      } else if inMqttConfig && Strip(line) == "}" {
        inMqttConfig := false;
        newLines := newLines + [line];
      } else if !inMqttConfig {
        newLines := newLines + [line];
      }
      assert newLines == before + out;
      ConcatAssoc(before, out, rest);
    }
    assert lines[|lines|..] == [];
    assert newLines + [] == newLines;
    return true, Some(Join(newLines, '\n'));
  }

  lemma ConcatAssoc(a: seq<string>, b: seq<string>, c: seq<string>)
    ensures a + (b + c) == (a + b) + c
  {
  }

  /** A config file without the block is written back unchanged. */
  lemma NoBlockUnchanged(content: string, generated: seq<string>)
    requires forall i :: 0 <= i < |Split(content, '\n')| ==> !IsHeader(Split(content, '\n')[i], Header)
    ensures Join(Rewrite(false, Split(content, '\n'), Header, generated), '\n') == content
  {
    CopiedOutside(Split(content, '\n'), Header, generated);
    JoinSplit(content, '\n');
  }
}
