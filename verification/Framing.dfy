/** Packets over HTTP long-polling (internal/socketio/hub.go): several packets in one body, separated by
    U+001E (Engine.IO protocol revision 4, section "Packet encoding", "HTTP long-polling"). */
module Framing {
  import opened Strings

  const RECORD_SEPARATOR := '\U{1E}'

  /** The packets of a body that reach the handler's switch: split, trimmed, empty ones skipped. */
  function Frames(body: string): seq<string> { Handled(Split(body, RECORD_SEPARATOR)) }

  function Handled(parts: seq<string>): seq<string> {
    if parts == [] then []
    else
      var p := TrimSpace(parts[|parts| - 1]);
      Handled(parts[..|parts| - 1]) + (if p == "" then [] else [p])
  }

  predicate Clean(p: string) { p != "" && Trimmed(p) && '\U{1E}' !in p }

  lemma {:induction false} CleanPartsAreHandled(parts: seq<string>)
    requires forall i :: 0 <= i < |parts| ==> parts[i] != "" && Trimmed(parts[i])
    ensures Handled(parts) == parts
  {
    hide TrimSpace, Trimmed;
    if parts != [] {
      var rest, p := parts[..|parts| - 1], parts[|parts| - 1];
      TrimSpaceTrims(p);
      CleanPartsAreHandled(rest);
      assert parts == rest + [p];
    }
  }

  lemma {:induction false} TrimKeepsOut(s: string, c: char)
    requires c !in s
    ensures c !in TrimSpace(s)
  {
    TrimLeftKeepsOut(s, c);
    TrimRightEnds(TrimLeft(s));
  }

  lemma {:induction false} TrimLeftKeepsOut(s: string, c: char)
    requires c !in s
    ensures c !in TrimLeft(s)
  {
    if s != "" && IsSpace(s[0]) { TrimLeftKeepsOut(s[1..], c); }
  }

  lemma {:induction false} HandledAreClean(parts: seq<string>)
    requires forall i :: 0 <= i < |parts| ==> RECORD_SEPARATOR !in parts[i]
    ensures forall k :: 0 <= k < |Handled(parts)| ==> Clean(Handled(parts)[k])
  {
    if parts != [] {
      HandledAreClean(parts[..|parts| - 1]);
      TrimSpaceTrims(parts[|parts| - 1]);
      TrimKeepsOut(parts[|parts| - 1], RECORD_SEPARATOR);
    }
  }

  /** Whatever the body, the handler sees only non-empty, trimmed packets without separators. */
  lemma FramesAreClean(body: string)
    ensures forall k :: 0 <= k < |Frames(body)| ==> Clean(Frames(body)[k])
  {
    JoinSplit(body, RECORD_SEPARATOR);
    HandledAreClean(Split(body, RECORD_SEPARATOR));
  }

  /** A joined list of packets arrives as the same list exactly when each packet is non-empty, trimmed and
      free of the separator. */
  lemma FramingRoundTrip(packets: seq<string>)
    ensures Frames(Join(packets, '\U{1E}')) == packets <==> forall i :: 0 <= i < |packets| ==> Clean(packets[i])
  {
    if forall i :: 0 <= i < |packets| ==> Clean(packets[i]) {
      if packets == [] {
        assert TrimSpace("") == "";
        assert Split("", RECORD_SEPARATOR) == [""] && [""][..0] == [];
      } else {
        SplitJoin(packets, RECORD_SEPARATOR);
        CleanPartsAreHandled(packets);
      }
    } else {
      FramesAreClean(Join(packets, RECORD_SEPARATOR));
    }
  }
}
