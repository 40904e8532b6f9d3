/**
 * The connection screen: the simulated two-phase scan, and the doll status
 * record built when a device is picked, whose character name is the second
 * space-separated token of the device name.
 */
module DeviceConnection {
  import opened Wrappers
  import opened AppTypes

  datatype Device = Device(id: string, name: string, rssi: int)

  /** The devices the simulated scan always finds. */
  const ScannedDevices: seq<Device> := [
    Device("CD-001-GOURAI", "CutieroidDoll 轟雷", -45),
    Device("CD-002-STYLET", "CutieroidDoll スティレット", -67),
    Device("CD-003-BASELARD", "CutieroidDoll バーゼラルド", -82)
  ]

  /** `String.prototype.split` with a one-character separator: every separator cuts, empty pieces are kept. */
  function Split(s: string, sep: char): (pieces: seq<string>)
    ensures |pieces| > 0
    ensures forall k :: 0 <= k < |pieces| ==> sep !in pieces[k]
  {
    if |s| == 0 then [""]
    else
      var rest := Split(s[1..], sep);
      if s[0] == sep then [""] + rest
      else [[s[0]] + rest[0]] + rest[1..]
  }

  /** `Array.prototype.join`: the pieces with the separator between neighbours. */
  function Join(pieces: seq<string>, sep: char): string
    requires |pieces| > 0
  {
    if |pieces| == 1 then pieces[0] else pieces[0] + [sep] + Join(pieces[1..], sep)
  }

  /** Splitting loses nothing: joining the pieces gives the string back. */
  lemma {:induction false} JoinSplit(s: string, sep: char)
    ensures Join(Split(s, sep), sep) == s
  {
    if |s| > 0 {
      JoinSplit(s[1..], sep);
      var rest := Split(s[1..], sep);
      if s[0] == sep {
        assert ([""] + rest)[1..] == rest;
        assert s == [sep] + s[1..];
      } else {
        var pieces := [[s[0]] + rest[0]] + rest[1..];
        if |rest| == 1 {
          assert s == [s[0]] + s[1..];
        } else {
          assert pieces[1..] == rest[1..];
          assert Join(rest, sep) == rest[0] + [sep] + Join(rest[1..], sep);
          assert s == [s[0]] + s[1..];
        }
      }
    }
  }

  /** A string with no separator splits into itself alone. */
  lemma {:induction false} SplitWithoutSeparator(s: string, sep: char)
    requires sep !in s
    ensures Split(s, sep) == [s]
  {
    if |s| > 0 {
      SplitWithoutSeparator(s[1..], sep);
      assert s == [s[0]] + s[1..];
    }
  }

  /** Splitting `a + [sep] + b` where `a` has no separator gives `a` and then the pieces of `b`. */
  lemma {:induction false} SplitAfterFirst(a: string, b: string, sep: char)
    requires sep !in a
    ensures Split(a + [sep] + b, sep) == [a] + Split(b, sep)
  {
    if |a| == 0 {
      assert a + [sep] + b == [sep] + b;
      assert ([sep] + b)[1..] == b;
    } else {
      var s := a + [sep] + b;
      assert s[0] == a[0] && s[1..] == a[1..] + [sep] + b;
      SplitAfterFirst(a[1..], b, sep);
      assert a == [a[0]] + a[1..];
    }
  }

  /** `name.split(' ')[1]`, with `None` for the `undefined` that a name with a single piece gives. */
  function SecondToken(name: string): Option<string> {
    var pieces := Split(name, ' ');
    if |pieces| >= 2 then Some(pieces[1]) else None
  }

  /** The token is missing exactly when the name has no space, and it never holds a space itself. */
  lemma SecondTokenDefined(name: string)
    ensures SecondToken(name).None? <==> ' ' !in name
    ensures SecondToken(name).Some? ==> ' ' !in SecondToken(name).value
  {
    if ' ' in name {
      if |Split(name, ' ')| == 1 { JoinSplit(name, ' '); }
    } else {
      SplitWithoutSeparator(name, ' ');
    }
  }

  /** The character name is the word after the first space, up to the next space. */
  lemma SecondTokenOf(first: string, second: string, rest: string)
    requires ' ' !in first && ' ' !in second
    requires rest == [] || rest[0] == ' '
    ensures SecondToken(first + " " + second + rest) == Some(second)
  {
    var name := first + " " + second + rest;
    assert name == first + [' '] + (second + rest);
    SplitAfterFirst(first, second + rest, ' ');
    if rest == [] {
      assert second + rest == second;
      SplitWithoutSeparator(second, ' ');
    } else {
      assert second + rest == second + [' '] + rest[1..];
      SplitAfterFirst(second, rest[1..], ' ');
    }
  }

  /** The status record the connect handler passes to `onConnect`. */
  function ConnectToDevice(d: Device): (status: DollStatus)
    ensures status.connected && status.deviceId == d.id
    ensures status.characterName == SecondToken(d.name)
  {
    DollStatus(true, 85, 42, "スタンバイ", "おかえりなさい、マスター！", "今日 18:00 - おやすみの挨拶",
               d.id, "v1.2.3", SecondToken(d.name))
  }

  /** The fixed fields of a connected status. */
  lemma ConnectedConstants(d: Device)
    ensures var st := ConnectToDevice(d);
            st.batteryLevel == 85 && st.affectionLevel == 42 &&
            st.currentMode == "スタンバイ" && st.firmwareVersion == "v1.2.3"
  {
  }

  /** The character names of the three scanned devices. */
  const ScannedNames: seq<string> := ["轟雷", "スティレット", "バーゼラルド"]

  /** The three scanned devices give the character names 轟雷, スティレット and バーゼラルド. */
  lemma ScannedCharacterNames(k: nat)
    requires k < |ScannedDevices|
    ensures ConnectToDevice(ScannedDevices[k]).characterName == Some(ScannedNames[k])
  {
    DollCharacterName(ScannedDevices[k], ScannedNames[k]);
  }

  /** A device named `CutieroidDoll <name>` gives the character name `<name>`. */
  lemma DollCharacterName(d: Device, name: string)
    requires ' ' !in name && d.name == "CutieroidDoll " + name
    ensures ConnectToDevice(d).characterName == Some(name)
  {
    assert d.name == "CutieroidDoll" + " " + name + "";
    SecondTokenOf("CutieroidDoll", name, "");
  }

  /**
   * The screen's state.  `pendingScans` counts the delayed scan completions
   * that have been scheduled and have not fired yet.
   */
  class ConnectionScreen {
    var scanning: bool
    var devices: seq<Device>
    var pendingScans: nat

    /** The scan button is disabled while scanning, so at most one completion is ever pending. */
    ghost predicate Valid()
      reads this
    {
      pendingScans == if scanning then 1 else 0
    }

    constructor ()
      ensures Valid() && !scanning && devices == [] && pendingScans == 0
    {
      scanning, devices, pendingScans := false, [], 0;
    }

    /** The scan handler: scanning on, list emptied, completion scheduled. */
    method StartScan()
      modifies this
      ensures scanning && devices == [] && pendingScans == old(pendingScans) + 1
    {
      scanning := true;
      devices := [];
      pendingScans := pendingScans + 1;
    }

    /** A click on the scan button, which does nothing while it is disabled. */
    method PressScan()
      requires Valid()
      modifies this
      ensures Valid()
      ensures old(scanning) ==> scanning && devices == old(devices) && pendingScans == old(pendingScans)
      ensures !old(scanning) ==> scanning && devices == [] && pendingScans == 1
    {
      if ScanEnabled() {
        StartScan();
      }
    }

    /** The delayed completion: the fixed devices are listed and scanning ends. */
    method CompleteScan()
      requires pendingScans > 0
      modifies this
      ensures devices == ScannedDevices && !scanning && pendingScans == old(pendingScans) - 1
      ensures old(Valid()) ==> Valid()
    {
      devices := ScannedDevices;
      scanning := false;
      pendingScans := pendingScans - 1;
    }

    predicate ScanEnabled()
      reads this
    {
      !scanning
    }

    /** The device list renders iff it is non-empty. */
    predicate DeviceListShown()
      reads this
    {
      |devices| > 0
    }
  }
}
