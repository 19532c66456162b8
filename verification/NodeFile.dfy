/** dump_nodes_to_persistent_file and read_nodes_from_persistent_file of local_commands.py, and exactly when
    reading gives back the dumped hostnames. */
module NodeFile {
  import opened Outcomes
  import opened Strings
  import opened CloudTools
  import opened JobScheduler
  import opened JobRequests

  const NEWLINE := '\n'

  function LineFor(vm: VM, nodeProperty: string): string {
    vm.hostname + (" np=" + Decimal(vm.vcpus) + " " + nodeProperty + [NEWLINE])
  }

  /** The content of the file. */
  function Dumped(vms: seq<VM>, nodeProperty: string): string {
    if vms == [] then "" else LineFor(vms[0], nodeProperty) + Dumped(vms[1..], nodeProperty)
  }

  function Hostnames(vms: seq<VM>): seq<string> {
    seq(|vms|, i requires 0 <= i < |vms| => vms[i].hostname)
  }

  /** The length of the first line, with its line break if it has one. */
  function FirstLine(s: string): (n: nat)
    requires s != []
    ensures 0 < n <= |s|
  {
    if s[0] == NEWLINE || |s| == 1 then 1 else 1 + FirstLine(s[1..])
  }

  /** file.readlines() */
  function ReadLines(s: string): seq<string> {
    if s == [] then [] else [s[..FirstLine(s)]] + ReadLines(s[FirstLine(s)..])
  }

  /** line.split(" ")[0] */
  function FirstWord(s: string): string {
    if s == [] || s[0] == ' ' then "" else [s[0]] + FirstWord(s[1..])
  }

  function NodeName(line: string): string {
    Strip(FirstWord(line))
  }

  function NodeNames(lines: seq<string>): seq<string> {
    seq(|lines|, i requires 0 <= i < |lines| => NodeName(lines[i]))
  }

  /** The node names in a file; a missing file has none. */
  function Read(content: Option<string>): seq<string> {
    match content
    case None => []
    case Some(s) => NodeNames(ReadLines(s))
  }

  lemma {:induction false} DumpedAppend(a: seq<VM>, b: seq<VM>, nodeProperty: string)
    ensures Dumped(a + b, nodeProperty) == Dumped(a, nodeProperty) + Dumped(b, nodeProperty)
  {
    if a == [] {
      assert a + b == b;
    } else {
      assert (a + b)[1..] == a[1..] + b;
      DumpedAppend(a[1..], b, nodeProperty);
    }
  }

  method DumpNodesToPersistentFile(vms: seq<VM>, nodeProperty: string) returns (content: string)
    ensures content == Dumped(vms, nodeProperty)
  {
    content := "";
    for i := 0 to |vms|
      invariant content == Dumped(vms[..i], nodeProperty)
    {
      content := content + LineFor(vms[i], nodeProperty);
      assert vms[..i + 1] == vms[..i] + [vms[i]];
      DumpedAppend(vms[..i], [vms[i]], nodeProperty);
      assert [vms[i]][1..] == [];
    }
    assert vms[..|vms|] == vms;
  }

  method ReadNodesFromPersistentFile(content: Option<string>) returns (nodes: seq<string>)
    ensures nodes == Read(content)
  {
    nodes := [];
    if content.Some? {
      var lines := ReadLines(content.value);
      for i := 0 to |lines|
        invariant |nodes| == i && forall j :: 0 <= j < i ==> nodes[j] == NodeName(lines[j])
      {
        nodes := nodes + [Strip(FirstWord(lines[i]))];
      }
    }
  }

  // ----- counting lines -----

  function Breaks(s: string): nat {
    if s == [] then 0 else (if s[0] == NEWLINE then 1 else 0) + Breaks(s[1..])
  }

  lemma {:induction false} BreaksAppend(a: string, b: string)
    ensures Breaks(a + b) == Breaks(a) + Breaks(b)
  {
    if a == [] {
      assert a + b == b;
    } else {
      assert (a + b)[1..] == a[1..] + b;
      BreaksAppend(a[1..], b);
    }
  }

  lemma {:induction false} NoBreaks(s: string)
    ensures Breaks(s) == 0 <==> NEWLINE !in s
  {
    if s != [] {
      assert s == [s[0]] + s[1..];
      NoBreaks(s[1..]);
    }
  }

  lemma {:induction false} DigitsHaveNoBreak(n: nat)
    ensures Breaks(Digits(n)) == 0
  {
    if n >= 10 {
      DigitsHaveNoBreak(n / 10);
      BreaksAppend(Digits(n / 10), [(n % 10) as char + '0']);
    }
    assert [(n % 10) as char + '0'][1..] == [];
  }

  lemma DecimalHasNoBreak(n: int)
    ensures Breaks(Decimal(n)) == 0
  {
    if n < 0 {
      DigitsHaveNoBreak(-n);
      BreaksAppend("-", Digits(-n));
      assert "-"[1..] == [];
    } else {
      DigitsHaveNoBreak(n);
    }
  }

  /** A line that ends in the only line break is read as one line. */
  lemma {:induction false} FirstLineEnds(a: string, rest: string)
    requires NEWLINE !in a
    ensures FirstLine(a + [NEWLINE] + rest) == |a| + 1
  {
    var s := a + [NEWLINE] + rest;
    if a != [] {
      assert s[1..] == a[1..] + [NEWLINE] + rest;
      FirstLineEnds(a[1..], rest);
    }
  }

  lemma {:induction false} FirstLineHasOneBreak(s: string)
    requires s != [] && s[|s| - 1] == NEWLINE
    ensures Breaks(s[..FirstLine(s)]) == 1
    ensures FirstLine(s) < |s| ==> s[FirstLine(s)..][|s| - FirstLine(s) - 1] == NEWLINE
  {
    if s[0] == NEWLINE || |s| == 1 {
      assert s[..1][1..] == [];
    } else {
      FirstLineHasOneBreak(s[1..]);
      assert s[..FirstLine(s)][1..] == s[1..][..FirstLine(s[1..])];
    }
  }

  lemma {:induction false} LinesAreBreaks(s: string)
    requires s == [] || s[|s| - 1] == NEWLINE
    ensures |ReadLines(s)| == Breaks(s)
  {
    if s != [] {
      var n := FirstLine(s);
      FirstLineHasOneBreak(s);
      LinesAreBreaks(s[n..]);
      assert s == s[..n] + s[n..];
      BreaksAppend(s[..n], s[n..]);
    }
  }

  lemma LineBreaks(vm: VM, nodeProperty: string)
    ensures Breaks(LineFor(vm, nodeProperty)) == Breaks(vm.hostname) + Breaks(nodeProperty) + 1
  {
    var np, number := " np=", Decimal(vm.vcpus);
    BreaksAppend(vm.hostname, np + number + " " + nodeProperty + [NEWLINE]);
    BreaksAppend(np + number + " " + nodeProperty, [NEWLINE]);
    BreaksAppend(np + number + " ", nodeProperty);
    BreaksAppend(np + number, " ");
    BreaksAppend(np, number);
    DecimalHasNoBreak(vm.vcpus);
    NoBreaks(np);
    NoBreaks(" ");
    assert [NEWLINE][1..] == [];
  }

  lemma {:induction false} DumpedBreaks(vms: seq<VM>, nodeProperty: string)
    ensures Breaks(Dumped(vms, nodeProperty)) >= |vms|
    ensures Breaks(Dumped(vms, nodeProperty)) == |vms|
       <==> forall i :: 0 <= i < |vms| ==> Breaks(vms[i].hostname) == 0 && Breaks(nodeProperty) == 0
    ensures vms != [] ==> Dumped(vms, nodeProperty) != []
                          && Dumped(vms, nodeProperty)[|Dumped(vms, nodeProperty)| - 1] == NEWLINE
  {
    if vms != [] {
      DumpedBreaks(vms[1..], nodeProperty);
      LineBreaks(vms[0], nodeProperty);
      BreaksAppend(LineFor(vms[0], nodeProperty), Dumped(vms[1..], nodeProperty));
      assert vms == [vms[0]] + vms[1..];
    }
  }

  lemma {:induction false} DumpedLines(vms: seq<VM>, nodeProperty: string)
    requires Breaks(nodeProperty) == 0 && forall i :: 0 <= i < |vms| ==> Breaks(vms[i].hostname) == 0
    ensures |ReadLines(Dumped(vms, nodeProperty))| == |vms|
    ensures forall i :: 0 <= i < |vms| ==> ReadLines(Dumped(vms, nodeProperty))[i] == LineFor(vms[i], nodeProperty)
  {
    if vms != [] {
      DumpedLines(vms[1..], nodeProperty);
      OneLine(vms[0], nodeProperty, Dumped(vms[1..], nodeProperty));
    }
  }

  lemma OneLine(vm: VM, nodeProperty: string, rest: string)
    requires Breaks(nodeProperty) == 0 && Breaks(vm.hostname) == 0
    ensures ReadLines(LineFor(vm, nodeProperty) + rest) == [LineFor(vm, nodeProperty)] + ReadLines(rest)
  {
    var line := LineFor(vm, nodeProperty);
    var a := line[..|line| - 1];
    assert line == a + [NEWLINE];
    LineBreaks(vm, nodeProperty);
    BreaksAppend(a, [NEWLINE]);
    assert [NEWLINE][1..] == [];
    NoBreaks(a);
    FirstLineEnds(a, rest);
    var s := line + rest;
    assert s == a + [NEWLINE] + rest;
    assert s[..|a| + 1] == line && s[|a| + 1..] == rest;
  }

  // ----- the first word -----

  lemma {:induction false} FirstWordOf(a: string, b: string)
    requires b != [] && b[0] == ' '
    ensures ' ' !in a ==> FirstWord(a + b) == a
    ensures ' ' in a ==> |FirstWord(a + b)| < |a|
  {
    if a == [] {
      assert a + b == b;
    } else {
      assert (a + b)[1..] == a[1..] + b;
      assert a == [a[0]] + a[1..];
      FirstWordOf(a[1..], b);
    }
  }

  lemma {:induction false} StripShortens(s: string)
    ensures |RStrip(s)| <= |s| && |LStrip(s)| <= |s|
  {
    if s != [] {
      StripShortens(s[1..]);
      StripShortens(s[..|s| - 1]);
    }
  }

  /** The hostname survives: no blank or line break inside, no white space at its ends. */
  predicate Clean(hostname: string) {
    ' ' !in hostname && NEWLINE !in hostname && Strip(hostname) == hostname
  }

  lemma NameOfLine(vm: VM, nodeProperty: string)
    ensures NodeName(LineFor(vm, nodeProperty)) == vm.hostname
       <==> ' ' !in vm.hostname && Strip(vm.hostname) == vm.hostname
  {
    var rest := " np=" + Decimal(vm.vcpus) + " " + nodeProperty + [NEWLINE];
    FirstWordOf(vm.hostname, rest);
    var word := FirstWord(LineFor(vm, nodeProperty));
    StripShortens(word);
    StripShortens(LStrip(word));
  }

  /** Reading a dumped file gives back the hostnames in order if and only if every hostname is clean and the
      node property has no line break. */
  lemma RoundTrip(vms: seq<VM>, nodeProperty: string)
    ensures Read(Some(Dumped(vms, nodeProperty))) == Hostnames(vms)
       <==> forall i :: 0 <= i < |vms| ==> Clean(vms[i].hostname) && NEWLINE !in nodeProperty
  {
    var lines := ReadLines(Dumped(vms, nodeProperty));
    DumpedBreaks(vms, nodeProperty);
    LinesAreBreaks(Dumped(vms, nodeProperty));
    NoBreaks(nodeProperty);
    forall i | 0 <= i < |vms|
      ensures Breaks(vms[i].hostname) == 0 <==> NEWLINE !in vms[i].hostname
      ensures NodeName(LineFor(vms[i], nodeProperty)) == vms[i].hostname
         <==> ' ' !in vms[i].hostname && Strip(vms[i].hostname) == vms[i].hostname
    {
      NoBreaks(vms[i].hostname);
      NameOfLine(vms[i], nodeProperty);
    }
    if vms != [] && |lines| == |vms| {
      assert Breaks(vms[0].hostname) == 0 && Breaks(nodeProperty) == 0;
      DumpedLines(vms, nodeProperty);
      ReadIffClean(vms, nodeProperty);
    }
  }

  lemma ReadIffClean(vms: seq<VM>, nodeProperty: string)
    requires Breaks(nodeProperty) == 0 && forall i :: 0 <= i < |vms| ==> Breaks(vms[i].hostname) == 0
    ensures Read(Some(Dumped(vms, nodeProperty))) == Hostnames(vms)
       <==> forall i :: 0 <= i < |vms| ==> NodeName(LineFor(vms[i], nodeProperty)) == vms[i].hostname
  {
    var lines := ReadLines(Dumped(vms, nodeProperty));
    DumpedLines(vms, nodeProperty);
    forall i | 0 <= i < |vms|
      ensures NodeNames(lines)[i] == NodeName(LineFor(vms[i], nodeProperty)) && Hostnames(vms)[i] == vms[i].hostname
    {
    }
    if Read(Some(Dumped(vms, nodeProperty))) == Hostnames(vms) {
      forall i | 0 <= i < |vms|
        ensures NodeName(LineFor(vms[i], nodeProperty)) == vms[i].hostname
      {
        assert NodeNames(lines)[i] == Hostnames(vms)[i];
      }
    }
  }

  // ----- the whole line -----

  /** The line as Torque reads it: the hostname, np= with a number, and the node property. */
  ghost predicate Says(line: string, hostname: string, cores: int, nodeProperty: string) {
    exists number :: ToInt(number) == Ok(cores) && line == Line(hostname, number, nodeProperty)
  }

  function Line(hostname: string, number: string, nodeProperty: string): string {
    hostname + " np=" + number + (" " + nodeProperty + [NEWLINE])
  }

  lemma SameNumber(hostname: string, a: string, b: string, nodeProperty: string)
    requires Line(hostname, a, nodeProperty) == Line(hostname, b, nodeProperty)
    ensures a == b
  {
    var n, tail := |hostname + " np="|, " " + nodeProperty + [NEWLINE];
    var line := Line(hostname, a, nodeProperty);
    assert line[n..|line| - |tail|] == a;
    assert line == hostname + " np=" + b + tail;
    assert line[n..|line| - |tail|] == b;
  }

  /** The line says the VM's number of cores, and no other. */
  lemma LineSaysCores(vm: VM, nodeProperty: string, cores: int)
    ensures Says(LineFor(vm, nodeProperty), vm.hostname, cores, nodeProperty) <==> cores == vm.vcpus
  {
    var number := Decimal(vm.vcpus);
    DecimalIsRead(vm.vcpus);
    assert LineFor(vm, nodeProperty) == Line(vm.hostname, number, nodeProperty);
    if Says(LineFor(vm, nodeProperty), vm.hostname, cores, nodeProperty) {
      var other :| ToInt(other) == Ok(cores) && LineFor(vm, nodeProperty) == Line(vm.hostname, other, nodeProperty);
      SameNumber(vm.hostname, number, other, nodeProperty);
    }
  }
}
