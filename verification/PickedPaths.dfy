/** The stand-in paths an app is given for what a person picked, and the table that answers them. */
module PickedPaths {
  import opened Results
  import opened Text

  type Handle = nat

  datatype Kind = File(name: string) | Directory

  /** `serial` stands for the identity of the entry: no two entries share one. */
  datatype Entry = Entry(kind: Kind, id: string, handle: Handle, serial: nat)

  datatype Resolution = Pick(entry: Entry, relative: string) | Stale(id: string) | Listing

  const PICKED_ROOT := "/orivon/picked"
  const ROOT_SEGMENTS: seq<string> := ["orivon", "picked"]

  /** The twelve random bytes of an id, in hexadecimal. */
  predicate IsId(id: string) {
    |id| == 24 && forall i :: 0 <= i < |id| ==> '0' <= id[i] <= '9' || 'a' <= id[i] <= 'f'
  }

  function CleanChar(c: char): char {
    if c == '/' || c == '\\' || c as int < 32 then '_' else c
  }

  function Cleaned(name: string): string {
    seq(|name|, (i: nat) requires i < |name| => CleanChar(name[i]))
  }

  /** Any file name as one path segment. */
  function Segment(name: string): (segment: string)
    ensures IsSegment(segment) && (IsSegment(name) && Cleaned(name) == name ==> segment == name)
  {
    var cleaned := Cleaned(name);
    if cleaned == "" || cleaned == "." || cleaned == ".." then "file" else cleaned
  }

  /** A part of a path that stands for itself. */
  predicate IsSegment(part: string) {
    part !in {"", ".", ".."} && '/' !in part
  }

  /** A name keeps every character but slashes, backslashes and control characters, each of which becomes `_`; what is then no name becomes `file`. */
  lemma SegmentIsName(name: string)
    ensures Segment(name) == "file" || |Segment(name)| == |name|
    ensures Segment(name) == "file" || forall i :: 0 <= i < |name| ==>
              Segment(name)[i] == if name[i] == '/' || name[i] == '\\' || name[i] as int < 0x20 then '_' else name[i]
    ensures Segment(name) == "file" <==> name == "file" || name == "" || name == "." || name == ".."
  {
    assert Cleaned(".") == "." && Cleaned("..") == "..";
    if Cleaned(name) == "file" {
      assert name == "file" by {
        assert |name| == 4 && Cleaned(name)[0] == 'f' && Cleaned(name)[1] == 'i' && Cleaned(name)[2] == 'l' && Cleaned(name)[3] == 'e';
      }
    }
    if Cleaned(name) == "." {
      assert Cleaned(name)[0] == '.';
      assert name == ".";
    }
    if Cleaned(name) == ".." {
      assert Cleaned(name)[0] == '.' && Cleaned(name)[1] == '.';
      assert name == "..";
    }
  }

  // ---------------------------------------------------------------- normal form

  function Step(kept: seq<string>, part: string): seq<string> {
    if part == "" || part == "." then kept
    else if part == ".." then (if kept == [] then [] else kept[..|kept| - 1])
    else kept + [part]
  }

  function Kept(parts: seq<string>): seq<string> {
    if parts == [] then [] else Step(Kept(parts[..|parts| - 1]), parts[|parts| - 1])
  }

  function Segments(path: string): seq<string> {
    Kept(Split(path, '/'))
  }

  function Normal(path: string): string {
    "/" + Join(Segments(path), '/')
  }

  method NormalizeAbsolute(path: string) returns (normalized: string)
    ensures normalized == Normal(path)
  {
    var parts := Split(path, '/');
    var kept: seq<string> := [];
    for i := 0 to |parts|
      invariant kept == Kept(parts[..i])
    {
      assert parts[..i + 1][..i] == parts[..i];
      var part := parts[i];
      if part == "" || part == "." {
      } else if part == ".." {
        if kept != [] {
          kept := kept[..|kept| - 1];
        }
      } else {
        kept := kept + [part];
      }
    }
    assert parts[..|parts|] == parts;
    normalized := "/" + Join(kept, '/');
  }

  ghost predicate AllSegments(parts: seq<string>) {
    forall i :: 0 <= i < |parts| ==> IsSegment(parts[i])
  }

  lemma {:induction false} KeptAreSegments(parts: seq<string>)
    requires forall i :: 0 <= i < |parts| ==> '/' !in parts[i]
    ensures AllSegments(Kept(parts))
    ensures forall part :: part in Kept(parts) ==> part in parts
  {
    if parts != [] {
      var front, last := parts[..|parts| - 1], parts[|parts| - 1];
      KeptAreSegments(front);
      assert last in parts && forall part :: part in front ==> part in parts;
      assert forall part :: part in Kept(parts) ==> part in Kept(front) || part == last;
    }
  }

  lemma SegmentsAreSegments(path: string)
    ensures AllSegments(Segments(path))
    ensures forall part :: part in Segments(path) ==> part in Split(path, '/')
  {
    JoinSplit(path, '/');
    var parts := Split(path, '/');
    forall i | 0 <= i < |parts|
      ensures '/' !in parts[i]
    {
      assert Free(parts[i], {'/'});
    }
    KeptAreSegments(parts);
  }

  lemma {:induction false} KeptOfSegments(parts: seq<string>)
    requires AllSegments(parts)
    ensures Kept(parts) == parts
  {
    if parts != [] {
      KeptOfSegments(parts[..|parts| - 1]);
      assert parts == parts[..|parts| - 1] + [parts[|parts| - 1]];
    }
  }

  lemma KeptWithEmptyFirst(parts: seq<string>)
    ensures Kept([""] + parts) == Kept(parts)
  {
    if parts == [] {
      assert ([""] + parts)[..0] == [];
    } else {
      KeptWithEmptyFirst(parts[..|parts| - 1]);
      assert ([""] + parts)[..|parts|] == [""] + parts[..|parts| - 1];
    }
  }

  /** A slash and some segments is the path of just those segments. */
  lemma SegmentsOfJoin(segments: seq<string>)
    requires AllSegments(segments)
    ensures Segments("/" + Join(segments, '/')) == segments
  {
    var path := "/" + Join(segments, '/');
    assert "" + path == path;
    CutAt("", path, {'/'});
    assert path[1..] == Join(segments, '/');
    assert Split(path, '/') == [""] + Split(path[1..], '/');
    if segments == [] {
      assert Split("", '/') == [""];
      assert Kept([""]) == Step(Kept([""][..0]), "");
      KeptWithEmptyFirst([""]);
    } else {
      forall i | 0 <= i < |segments|
        ensures Free(segments[i], {'/'})
      {
        assert IsSegment(segments[i]);
      }
      SplitJoin(segments, '/');
      KeptWithEmptyFirst(segments);
      KeptOfSegments(segments);
    }
  }

  /** The normal form is its own normal form, with no empty, `.` or `..` segment left. */
  lemma NormalIsNormal(path: string)
    ensures Normal(Normal(path)) == Normal(path)
    ensures Segments(Normal(path)) == Segments(path) && AllSegments(Segments(path))
  {
    SegmentsAreSegments(path);
    SegmentsOfJoin(Segments(path));
  }

  lemma KeptOneMore(a: seq<string>, part: string)
    ensures Kept(a + [part]) == Step(Kept(a), part)
  {
    assert (a + [part])[..|a|] == a;
  }

  lemma {:induction false} KeptFrom(a: seq<string>, a': seq<string>, b: seq<string>)
    requires Kept(a) == Kept(a')
    ensures Kept(a + b) == Kept(a' + b)
  {
    hide *;
    if b == [] {
      assert a + b == a && a' + b == a';
    } else {
      var front, last := b[..|b| - 1], b[|b| - 1];
      KeptFrom(a, a', front);
      KeptOneMore(a + front, last);
      KeptOneMore(a' + front, last);
      assert a + b == a + front + [last] && a' + b == a' + front + [last];
    }
  }

  /**
   What dots do wherever they stand between two parts of a path: nothing and `.` add nothing, and `..` takes away the segment
   before it, or nothing at the root. Without them a path is its own normal form, so this is all there is to it.
   */
  lemma DotsResolve(front: seq<string>, part: string, back: seq<string>)
    ensures Kept(front + [""] + back) == Kept(front + ["."] + back) == Kept(front + back)
    ensures IsSegment(part) ==> Kept(front + [part, ".."] + back) == Kept(front + back)
    ensures Kept([".."] + back) == Kept(back)
  {
    KeptOneMore(front, "");
    KeptOneMore(front, ".");
    KeptFrom(front + [""], front, back);
    KeptFrom(front + ["."], front, back);
    KeptOneMore(front, part);
    KeptOneMore(front + [part], "..");
    assert front + [part] + [".."] == front + [part, ".."];
    if IsSegment(part) {
      KeptFrom(front + [part, ".."], front, back);
    }
    KeptOneMore([], "..");
    assert [] + [".."] == [".."] && [] + back == back;
    KeptFrom([".."], [], back);
  }

  // ---------------------------------------------------------------- what a path names

  /** What a path names among the picks, read off its segments; nothing outside the picked root. */
  function Named(picks: map<string, Entry>, segments: seq<string>): Option<Resolution> {
    if |segments| < 2 || segments[..2] != ROOT_SEGMENTS then None
    else if |segments| == 2 then Some(Listing)
    else if segments[2] !in picks then Some(Stale(segments[2]))
    else Some(Pick(picks[segments[2]], Join(segments[3..], '/')))
  }

  function Resolve(picks: map<string, Entry>, path: string): Option<Resolution> {
    if !StartsWith(path, "/") then None else Named(picks, Segments(path))
  }

  /** The picked root, as text, is a prefix of joined segments exactly when its two segments are a prefix of them. */
  lemma RootIsTwoSegments(segments: seq<string>)
    requires AllSegments(segments)
    ensures "/" + Join(segments, '/') == PICKED_ROOT <==> segments == ROOT_SEGMENTS
    ensures StartsWith("/" + Join(segments, '/'), PICKED_ROOT + "/") <==> |segments| > 2 && segments[..2] == ROOT_SEGMENTS
    ensures |segments| > 2 && segments[..2] == ROOT_SEGMENTS ==>
              "/" + Join(segments, '/') == PICKED_ROOT + "/" + Join(segments[2..], '/')
  {
    hide Join, Split, Segments, AllSegments;
    var path := "/" + Join(segments, '/');
    SegmentsOfJoin(segments);
    RootJoins([]);
    RootAsSegments();
    if |segments| > 2 && segments[..2] == ROOT_SEGMENTS {
      RootJoins(segments[2..]);
      assert segments == ROOT_SEGMENTS + segments[2..];
      assert path[..|PICKED_ROOT| + 1] == PICKED_ROOT + "/";
    }
    if StartsWith(path, PICKED_ROOT + "/") {
      RootPrefix(path, segments);
    }
  }

  lemma RootAsSegments()
    ensures Segments(PICKED_ROOT) == ROOT_SEGMENTS && ROOT_SEGMENTS + [] == ROOT_SEGMENTS && AllSegments(ROOT_SEGMENTS)
  {
    RootJoins([]);
    assert ROOT_SEGMENTS + [] == ROOT_SEGMENTS;
    assert AllSegments(ROOT_SEGMENTS);
    SegmentsOfJoin(ROOT_SEGMENTS);
  }

  lemma RootJoins(rest: seq<string>)
    ensures "/" + Join(ROOT_SEGMENTS + rest, '/') == if rest == [] then PICKED_ROOT else PICKED_ROOT + "/" + Join(rest, '/')
  {
    var all := ROOT_SEGMENTS + rest;
    assert all[1..] == ["picked"] + rest && all[1..][1..] == rest;
    assert all[0] == "orivon" && all[1..][0] == "picked";
  }

  lemma SplitHead(head: string, rest: string)
    requires Free(head, {'/'})
    ensures Split(head + ("/" + rest), '/') == [head] + Split(rest, '/')
  {
    CutAt(head, "/" + rest, {'/'});
    assert ("/" + rest)[1..] == rest;
  }

  lemma RootSplit(rest: string)
    ensures Split(PICKED_ROOT + "/" + rest, '/') == ["", "orivon", "picked"] + Split(rest, '/')
  {
    hide Split;
    SplitHead("picked", rest);
    SplitHead("orivon", "picked" + ("/" + rest));
    SplitHead("", "orivon" + ("/" + ("picked" + ("/" + rest))));
    assert PICKED_ROOT + "/" + rest == "" + ("/" + ("orivon" + ("/" + ("picked" + ("/" + rest)))));
    assert [""] + (["orivon"] + (["picked"] + Split(rest, '/'))) == ["", "orivon", "picked"] + Split(rest, '/');
  }

  lemma RootPrefix(path: string, segments: seq<string>)
    requires AllSegments(segments) && path == "/" + Join(segments, '/') && StartsWith(path, PICKED_ROOT + "/")
    ensures |segments| > 2 && segments[..2] == ROOT_SEGMENTS
  {
    hide Split, AllSegments;
    var rest := path[|PICKED_ROOT| + 1..];
    assert path == PICKED_ROOT + "/" + rest;
    RootSplit(rest);
    JoinSplit(rest, '/');
    assert segments != [];
    JoinSplitSegments(segments);
    hide Join;
    assert segments == ([""] + segments)[1..];
    assert segments == ["orivon", "picked"] + Split(rest, '/');
  }

  lemma JoinSplitSegments(segments: seq<string>)
    requires AllSegments(segments) && segments != []
    ensures Split("/" + Join(segments, '/'), '/') == [""] + segments
  {
    hide Split;
    SplitHead("", Join(segments, '/'));
    assert "" + ("/" + Join(segments, '/')) == "/" + Join(segments, '/');
    forall i | 0 <= i < |segments|
      ensures Free(segments[i], {'/'})
    {
      assert IsSegment(segments[i]);
    }
    SplitJoin(segments, '/');
  }

  /** The id and the rest of joined segments, cut at the first slash. */
  lemma FirstSegment(segments: seq<string>)
    requires AllSegments(segments) && segments != []
    ensures var text := Join(segments, '/');
      && Before(text, {'/'}) == segments[0]
      && From(text, {'/'}) == if |segments| == 1 then "" else "/" + Join(segments[1..], '/')
  {
    hide Before, From;
    var head := segments[0];
    SegmentIsFree(head);
    if |segments| == 1 {
      assert head + "" == head;
      CutAt(head, "", {'/'});
    } else {
      var tail := "/" + Join(segments[1..], '/');
      assert Join(segments, '/') == head + tail;
      CutAt(head, tail, {'/'});
    }
  }

  lemma SegmentIsFree(part: string)
    requires IsSegment(part)
    ensures Free(part, {'/'})
  {
  }

  // ---------------------------------------------------------------- the table

  class Picks {
    var picks: map<string, Entry>
    var nextSerial: nat

    ghost predicate Valid()
      reads this
    {
      forall id :: id in picks ==> picks[id].id == id && picks[id].serial < nextSerial
    }

    constructor ()
      ensures Valid() && picks == map[]
    {
      picks, nextSerial := map[], 0;
    }

    method Keep(entry: Entry) returns (path: string)
      requires Valid() && entry.serial == nextSerial
      modifies this
      ensures Valid() && picks == old(picks)[entry.id := entry] && nextSerial == old(nextSerial) + 1
      ensures path == PICKED_ROOT + "/" + entry.id
    {
      picks := picks[entry.id := entry];
      nextSerial := nextSerial + 1;
      path := PICKED_ROOT + "/" + entry.id;
    }

    /** The path of a picked file names that file at once, whatever the file is called. */
    method RegisterPickedFile(handle: Handle, name: string, id: string) returns (path: string)
      requires Valid() && IsId(id)
      modifies this
      ensures Valid() && nextSerial == old(nextSerial) + 1
      ensures picks == old(picks)[id := Entry(File(Segment(name)), id, handle, old(nextSerial))]
      ensures path == "/orivon/picked" + "/" + id + "/" + Segment(name)
      ensures Resolve(picks, path) == Some(Pick(picks[id], Segment(name)))
    {
      var entry := Entry(File(Segment(name)), id, handle, nextSerial);
      path := Keep(entry);
      path := path + "/" + entry.kind.name;
      PathOfPick(picks, id, [entry.kind.name]);
      assert Join([entry.kind.name], '/') == entry.kind.name;
      assert path == PICKED_ROOT + "/" + id + ("/" + entry.kind.name);
    }

    method RegisterPickedDirectory(handle: Handle, id: string) returns (path: string)
      requires Valid() && IsId(id)
      modifies this
      ensures Valid() && nextSerial == old(nextSerial) + 1
      ensures picks == old(picks)[id := Entry(Directory, id, handle, old(nextSerial))]
      ensures path == "/orivon/picked" + "/" + id
      ensures Resolve(picks, path) == Some(Pick(picks[id], ""))
    {
      path := Keep(Entry(Directory, id, handle, nextSerial));
      PathOfPick(picks, id, []);
      assert path == PICKED_ROOT + "/" + id + "";
    }

    /** A handle closed: its entry goes, but not a later one that took its id. */
    method Forget(entry: Entry)
      requires Valid()
      modifies this
      ensures Valid() && nextSerial == old(nextSerial)
      ensures picks == if entry.id in old(picks) && old(picks)[entry.id] == entry then old(picks) - {entry.id} else old(picks)
    {
      if entry.id in picks && picks[entry.id] == entry {
        picks := picks - {entry.id};
      }
    }

    /** Matches the normal form as text, as the original does; the answer is what the segments name. */
    method ResolvePickedPath(path: string) returns (r: Option<Resolution>)
      ensures r == Resolve(picks, path)
    {
      if !StartsWith(path, "/") {
        return None;
      }
      var normalized := NormalizeAbsolute(path);
      ghost var segments := Segments(path);
      SegmentsAreSegments(path);
      RootIsTwoSegments(segments);
      if normalized == PICKED_ROOT {
        return Some(Listing);
      }
      if !StartsWith(normalized, PICKED_ROOT + "/") {
        return None;
      }
      var rest := normalized[|PICKED_ROOT| + 1..];
      assert rest == Join(segments[2..], '/');
      FirstSegment(segments[2..]);
      assert segments[2..][1..] == segments[3..];
      var id, after := Before(rest, {'/'}), From(rest, {'/'});
      if id !in picks {
        return Some(Stale(id));
      }
      r := Some(Pick(picks[id], if after == "" then "" else after[1..]));
    }
  }

  lemma PathOfPick(picks: map<string, Entry>, id: string, relative: seq<string>)
    requires IsId(id) && id in picks && AllSegments(relative)
    ensures var path := PICKED_ROOT + "/" + id + (if relative == [] then "" else "/" + Join(relative, '/'));
      Resolve(picks, path) == Some(Pick(picks[id], Join(relative, '/')))
  {
    hide Segments;
    var rest := [id] + relative;
    var path := PICKED_ROOT + "/" + id + (if relative == [] then "" else "/" + Join(relative, '/'));
    assert IsSegment(id);
    assert AllSegments(ROOT_SEGMENTS + rest);
    RootJoins(rest);
    SegmentsOfJoin(ROOT_SEGMENTS + rest);
    assert rest[1..] == relative;
    assert Join(rest, '/') == id + (if relative == [] then "" else "/" + Join(relative, '/'));
    assert path == PICKED_ROOT + "/" + Join(rest, '/');
    assert path[..1] == "/";
    assert (ROOT_SEGMENTS + rest)[..2] == ROOT_SEGMENTS && (ROOT_SEGMENTS + rest)[3..] == relative;
  }

  // ---------------------------------------------------------------- what resolution promises

  /** The root itself lists nothing, below it is a pick or what was one, and everything else is not of the picks. */
  lemma ResolutionIs(picks: map<string, Entry>, path: string)
    ensures var segments, r := Segments(path), Resolve(picks, path);
      && (r.None? <==> !StartsWith(path, "/") || |segments| < 2 || segments[0] != "orivon" || segments[1] != "picked")
      && (r.Some? ==> (r.value.Listing? <==> |segments| == 2))
      && (r.Some? && |segments| > 2 ==>
            if segments[2] in picks then r.value == Pick(picks[segments[2]], Join(segments[3..], '/')) else r.value == Stale(segments[2]))
  {
    hide Segments, Join;
    var segments := Segments(path);
    assert |segments| >= 2 ==> segments[..2] == [segments[0], segments[1]];
  }

  /** Two absolute paths with one normal form name the same, and a path names what its normal form does. */
  lemma ResolutionFollowsNormalForm(picks: map<string, Entry>, path: string, other: string)
    requires StartsWith(path, "/") && StartsWith(other, "/") && Normal(path) == Normal(other)
    ensures Resolve(picks, path) == Resolve(picks, other) == Resolve(picks, Normal(path))
  {
    hide Named, Join, Split;
    NormalIsNormal(path);
    NormalIsNormal(other);
  }

  /** What follows a pick in a path is segments only, so it stays below the pick's own folder. */
  lemma RelativeStaysBelow(picks: map<string, Entry>, path: string)
    requires Resolve(picks, path).Some? && Resolve(picks, path).value.Pick?
    ensures var r := Resolve(picks, path).value;
      && r.relative == Join(Segments(path)[3..], '/') && AllSegments(Segments(path)[3..])
      && Segments("/" + r.relative) == Segments(path)[3..]
  {
    SegmentsAreSegments(path);
    SegmentsOfJoin(Segments(path)[3..]);
  }

  /** A path reaches only a pick whose id it spells out, dots or no dots. */
  lemma PicksAreReachedByIdOnly(picks: map<string, Entry>, path: string)
    requires forall id :: id in picks ==> picks[id].id == id
    requires Resolve(picks, path).Some? && Resolve(picks, path).value.Pick?
    ensures Resolve(picks, path).value.entry.id in Split(path, '/')
  {
    SegmentsAreSegments(path);
    assert Segments(path)[2] in Segments(path);
  }

  /** A `..` can lead from under one pick to another, where the path spells out the other's id after it. */
  lemma DotsCanReachANamedPick(picks: map<string, Entry>, a: string, b: string)
    requires IsId(a) && IsId(b) && b in picks
    ensures Resolve(picks, PICKED_ROOT + "/" + a + "/../" + b) == Some(Pick(picks[b], ""))
  {
    hide Split;
    var path := PICKED_ROOT + "/" + a + "/../" + b;
    assert IsSegment(a) && IsSegment(b);
    SplitHead("..", b);
    SplitHead(a, ".." + ("/" + b));
    SplitHead("picked", a + ("/" + (".." + ("/" + b))));
    SplitHead("orivon", "picked" + ("/" + (a + ("/" + (".." + ("/" + b))))));
    SplitHead("", "orivon" + ("/" + ("picked" + ("/" + (a + ("/" + (".." + ("/" + b))))))));
    assert path == "" + ("/" + ("orivon" + ("/" + ("picked" + ("/" + (a + ("/" + (".." + ("/" + b)))))))));
    LastSplit(b);
    var parts := ["", "orivon", "picked", a, "..", b];
    assert Split(path, '/') == parts;
    KeptThere(parts, a, b);
    assert [b] == (ROOT_SEGMENTS + [b])[2..] && (ROOT_SEGMENTS + [b])[..2] == ROOT_SEGMENTS;
  }

  lemma LastSplit(s: string)
    requires Free(s, {'/'})
    ensures Split(s, '/') == [s]
  {
    assert s + "" == s;
    CutAt(s, "", {'/'});
  }

  lemma KeptThere(parts: seq<string>, a: string, b: string)
    requires parts == ["", "orivon", "picked", a, "..", b] && IsSegment(a) && IsSegment(b)
    ensures Kept(parts) == ROOT_SEGMENTS + [b]
  {
    assert parts[..5][..4][..3][..2][..1][..0] == [];
    assert Kept(parts[..1]) == [] by { assert parts[..1][..0] == []; }
    assert Kept(parts[..2]) == ["orivon"] by { assert parts[..2][..1] == parts[..1]; }
    assert Kept(parts[..3]) == ROOT_SEGMENTS by { assert parts[..3][..2] == parts[..2]; }
    assert Kept(parts[..4]) == ROOT_SEGMENTS + [a] by { assert parts[..4][..3] == parts[..3]; }
    assert Kept(parts[..5]) == ROOT_SEGMENTS by { assert parts[..5][..4] == parts[..4]; }
    assert parts[..6] == parts;
  }

  // ---------------------------------------------------------------- runs

  datatype Event = Registered(entry: Entry) | Closed(entry: Entry)

  /** The table after some registrations and closes, oldest first. */
  function Table(events: seq<Event>): map<string, Entry> {
    if events == [] then map[]
    else
      var before, e := Table(events[..|events| - 1]), events[|events| - 1].entry;
      if events[|events| - 1].Registered? then before[e.id := e]
      else if e.id in before && before[e.id] == e then before - {e.id}
      else before
  }

  /** The last registration under `id` is the `i`th, and its handle has not closed since. */
  ghost predicate LiveSince(events: seq<Event>, id: string, i: nat) {
    && i < |events| && events[i].Registered? && events[i].entry.id == id
    && forall j :: i < j < |events| ==>
         !(events[j].Registered? && events[j].entry.id == id) && events[j] != Closed(events[i].entry)
  }

  lemma {:induction false} TableIsWhatIsLive(events: seq<Event>, id: string)
    ensures id in Table(events) <==> exists i :: LiveSince(events, id, i)
    ensures forall i: nat :: LiveSince(events, id, i) ==> id in Table(events) && Table(events)[id] == events[i].entry
  {
    if events != [] {
      var front, last := events[..|events| - 1], events[|events| - 1];
      TableIsWhatIsLive(front, id);
      assert events == front + [last];
      if last.Registered? && last.entry.id == id {
        assert LiveSince(events, id, |front|);
      } else {
        forall i: nat | LiveSince(events, id, i)
          ensures LiveSince(front, id, i) && last != Closed(front[i].entry)
        {
          assert last == events[|front|];
        }
        forall i: nat | LiveSince(front, id, i) && last != Closed(front[i].entry)
          ensures LiveSince(events, id, i)
        {
        }
      }
    }
  }

  /** After any run a path names a pick exactly when the id in its normal form is live, and then the live one. */
  lemma LivePicksResolve(events: seq<Event>, path: string)
    ensures (exists entry, relative :: Resolve(Table(events), path) == Some(Pick(entry, relative)))
       <==> StartsWith(path, "/") && |Segments(path)| > 2 && Segments(path)[..2] == ROOT_SEGMENTS
            && exists i :: LiveSince(events, Segments(path)[2], i)
  {
    if |Segments(path)| > 2 {
      TableIsWhatIsLive(events, Segments(path)[2]);
      var id := Segments(path)[2];
      if StartsWith(path, "/") && Segments(path)[..2] == ROOT_SEGMENTS && id in Table(events) {
        assert Resolve(Table(events), path) == Some(Pick(Table(events)[id], Join(Segments(path)[3..], '/')));
      }
    }
  }
}
