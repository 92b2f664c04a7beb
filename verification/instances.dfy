/**
 * The browser-instance helpers of the `ff` crate (ff/src/lib.rs): waiting
 * for Marionette to come up, and the per-instance file that records the
 * port and name of a running browser.
 */
module Instances {
  import opened Wrappers
  import opened Bytes
  import opened Io

  type u16 = x: int | 0 <= x < 0x1_0000

  const SLASH: byte := 0x2F

  /** The number of connection attempts before giving up. */
  const MAX_RETRIES: nat := 4

  /**
   * `check_connection`. `connect(n)` is the outcome of the `n`-th attempt
   * (from 1); `sleeps` records, in seconds, the pause made before each
   * attempt.
   */
  method CheckConnection(connect: nat -> Result<(), IoError>) returns (r: Result<(), IoError>, sleeps: seq<nat>)
    ensures 1 <= |sleeps| <= MAX_RETRIES
    ensures forall i :: 0 <= i < |sleeps| ==> sleeps[i] == 2 * (i + 1)
    ensures forall n :: 1 <= n < |sleeps| ==> connect(n).Err?
    ensures r.Ok? <==> connect(|sleeps|).Ok?
    ensures r.Ok? <==> exists n :: 1 <= n <= MAX_RETRIES && connect(n).Ok?
    ensures r.Err? ==> |sleeps| == MAX_RETRIES && r == connect(MAX_RETRIES)
  {
    var retry := 1;
    sleeps := [];
    while true
      invariant 1 <= retry <= MAX_RETRIES
      invariant |sleeps| == retry - 1
      invariant forall i :: 0 <= i < |sleeps| ==> sleeps[i] == 2 * (i + 1)
      invariant forall n :: 1 <= n < retry ==> connect(n).Err?
      decreases MAX_RETRIES - retry
    {
      sleeps := sleeps + [retry * 2];
      match connect(retry) {
        case Ok(_) =>
          return Ok(()), sleeps;
        case Err(err) =>
          if MAX_RETRIES <= retry {
            return Err(err), sleeps;
          }
      }
      retry := retry + 1;
    }
  }

  /** A file written by `create_instance_file`: where it is, and what it holds. */
  datatype InstanceFile = InstanceFile(path: seq<Text>, content: seq<byte>)

  /** `instance_root_path`: `$HOME/.ff/instances`, or an error when HOME is unknown. */
  function InstanceRoot(home: Option<seq<Text>>): (r: Result<seq<Text>, IoError>)
    ensures r.Ok? <==> home.Some?
    ensures r.Ok? ==> r.value == home.value + [Ascii(".ff"), Ascii("instances")]
    ensures r.Err? ==> r.error.kind == Other
  {
    match home
    case None => Err(IoError(Other, Message(Ascii("Could not determine your HOME folder"))))
    case Some(h) => Ok(h + [Ascii(".ff"), Ascii("instances")])
  }

  /** `format!("{}/{}", port, name.unwrap_or(""))`. */
  function InstanceContent(port: u16, name: Option<Text>): seq<byte>
  {
    Ascii(DecimalString(port)) + [SLASH] + (if name.Some? then name.value else [])
  }

  /**
   * `create_instance_file`. `fsError` is the first failure, if any, of the
   * file-system calls that create the directory, create the file and write it.
   */
  function CreateInstanceFile(home: Option<seq<Text>>, name: Option<Text>, port: u16, fsError: Option<IoError>): (r: Result<InstanceFile, IoError>)
    ensures home.None? ==> r == Err(InstanceRoot(home).error)
    ensures home.Some? && fsError.Some? ==> r == Err(fsError.value)
    ensures r.Ok? ==> home.Some? && fsError.None?
    ensures r.Ok? ==> r.value.path == home.value + [Ascii(".ff"), Ascii("instances"), Ascii(DecimalString(port))]
    ensures r.Ok? ==> r.value.content == InstanceContent(port, name)
  {
    match InstanceRoot(home)
    case Err(e) => Err(e)
    case Ok(root) =>
      if fsError.Some? then Err(fsError.value)
      else Ok(InstanceFile(root + [Ascii(DecimalString(port))], InstanceContent(port, name)))
  }

  /**
   * The content reads back: the text before the first '/' is the port in
   * decimal, and everything after it is the name (empty when there was none).
   */
  lemma InstanceContentRoundTrip(port: u16, name: Option<Text>)
    ensures var c := InstanceContent(port, name); var i := IndexOf(c, SLASH);
      i < |c| &&
      ParseUsize(c[..i]) == Some(port) &&
      c[i + 1..] == (if name.Some? then name.value else [])
  {
    var digits := Ascii(DecimalString(port));
    var rest := if name.Some? then name.value else [];
    var c := InstanceContent(port, name);
    DecimalHasNo(port, SLASH);
    assert c[|digits|] == SLASH;
    assert IndexOf(c, SLASH) == |digits|;
    assert c[..|digits|] == digits;
    assert c[|digits| + 1..] == rest;
    ParseDecimal(port);
  }

  /** The file name is the port, so two instances on different ports never share a file. */
  lemma InstanceFilesDistinct(home: seq<Text>, name1: Option<Text>, name2: Option<Text>, port1: u16, port2: u16)
    requires port1 != port2
    ensures CreateInstanceFile(Some(home), name1, port1, None).value.path != CreateInstanceFile(Some(home), name2, port2, None).value.path
  {
    var p1 := CreateInstanceFile(Some(home), name1, port1, None).value.path;
    var p2 := CreateInstanceFile(Some(home), name2, port2, None).value.path;
    ParseDecimal(port1);
    ParseDecimal(port2);
    assert p1[|p1| - 1] == Ascii(DecimalString(port1));
    assert p2[|p2| - 1] == Ascii(DecimalString(port2));
  }
}
