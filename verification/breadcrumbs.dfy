/** The admin header's breadcrumb trail, computed from the location's pathname, the dynamic
    segment a detail page may publish, and a fixed table of segment names. */
module Breadcrumbs {
  import opened Wrappers
  import Seqs
  import Strings

  /** `breadcrumbNameMap`. */
  function SegmentName(segment: string): Option<string>
  {
    match segment
    case "dashboard" => Some("Dashboard")
    case "buildings" => Some("Quản lý Tòa nhà")
    case "add" => Some("Thêm mới")
    case "edit" => Some("Chỉnh sửa")
    case "rooms" => Some("Quản lý Phòng")
    case "tenants" => Some("Quản lý Khách thuê")
    case "contracts" => Some("Quản lý Hợp đồng")
    case "incidents" => Some("Quản lý Sự cố")
    case "meter-readings" => Some("Ghi chỉ số Điện Nước")
    case _ => None
  }

  /** `breadcrumbNameMap[value] || value`. */
  function NameOrSegment(segment: string): string
  {
    match SegmentName(segment)
    case Some(name) => if name != "" then name else segment
    case None => segment
  }

  function NonEmpty(x: string): bool { x != "" }

  /** `pathname.split('/').filter(x => x)`. */
  function Segments(pathname: string): (segs: seq<string>)
    ensures forall i :: 0 <= i < |segs| ==> segs[i] != "" && '/' !in segs[i]
    ensures forall x :: x in segs <==> x in Strings.Split(pathname, '/') && x != ""
  {
    var segs := Seqs.Filter(Strings.Split(pathname, '/'), NonEmpty);
    assert forall x :: x in segs ==> NonEmpty(x) by {
      forall x | x in segs ensures NonEmpty(x) { var i :| 0 <= i < |segs| && segs[i] == x; }
    }
    assert forall x :: x in Strings.Split(pathname, '/') && x != "" ==> x in segs by {
      var parts := Strings.Split(pathname, '/');
      forall x | x in parts && x != "" ensures x in segs { var i :| 0 <= i < |parts| && parts[i] == x; }
    }
    segs
  }

  /** The segments of `'/' + ps.join('/')` are `ps` again, for any list of non-empty pieces
      without a slash: the trail is built from exactly the path's pieces, in order. */
  lemma {:induction false} SegmentsOfJoin(ps: seq<string>)
    requires forall k :: 0 <= k < |ps| ==> ps[k] != "" && '/' !in ps[k]
    ensures Segments("/" + Strings.Join(ps, "/")) == ps
  {
    var joined := Strings.Join(ps, "/");
    assert "" + ['/'] + joined == "/" + joined;
    Strings.SplitAfterPiece("", joined, '/');
    if |ps| == 0 {
      assert Strings.Split("", '/') == [""];
      assert Seqs.Filter(["", ""], NonEmpty) == [];
    } else {
      Strings.SplitJoin(ps, '/');
      Seqs.FilterConcat([""], ps, NonEmpty);
      Seqs.FilterKeepsAll(ps, NonEmpty);
      assert Seqs.Filter([""], NonEmpty) == [];
    }
  }

  /** `'/' + segments.slice(0, n).join('/')`. */
  function PrefixPath(segs: seq<string>, n: nat): string
    requires n <= |segs|
  {
    "/" + Strings.Join(segs[..n], "/")
  }

  datatype Crumb = Crumb(to: string, text: string, isLink: bool)

  /** The label of crumb `i`. The last crumb shows the dynamic segment when there is a
      non-empty one, prefixed with the edit label when it follows an `edit` segment; every other
      crumb shows its table name, or the raw segment when it has none. */
  function Label(segs: seq<string>, i: nat, dynamicSegment: Option<string>): string
    requires i < |segs|
  {
    var isLast := i == |segs| - 1;
    var dynamic := dynamicSegment.Some? && dynamicSegment.value != "";
    if isLast && i > 0 && segs[i - 1] == "edit" && dynamic then
      SegmentName("edit").value + " " + dynamicSegment.value
    else if isLast && dynamic then dynamicSegment.value
    else NameOrSegment(segs[i])
  }

  /** `Header`'s breadcrumb trail (after the fixed home link): one crumb per segment, crumb `i`
      pointing at the first `i + 1` segments, and every crumb but the last a link. */
  function Trail(pathname: string, dynamicSegment: Option<string>): (trail: seq<Crumb>)
    ensures |trail| == |Segments(pathname)|
    ensures forall i :: 0 <= i < |trail| ==> trail[i].to == PrefixPath(Segments(pathname), i + 1)
    ensures forall i :: 0 <= i < |trail| ==> (trail[i].isLink <==> i < |trail| - 1)
    ensures forall i :: 0 <= i < |trail| - 1 ==> trail[i].text == NameOrSegment(Segments(pathname)[i])
  {
    var segs := Segments(pathname);
    seq(|segs|, i requires 0 <= i < |segs| =>
      Crumb(PrefixPath(segs, i + 1), Label(segs, i, dynamicSegment), i < |segs| - 1))
  }

  /** The last crumb's label: the edit form when the previous segment is `edit` and a dynamic
      segment is set, else the dynamic segment, else the table name or raw segment. */
  lemma LastLabel(pathname: string, dynamicSegment: Option<string>)
    requires |Segments(pathname)| > 0
    ensures var segs := Segments(pathname);
            var last := Trail(pathname, dynamicSegment)[|segs| - 1].text;
            if dynamicSegment.Some? && dynamicSegment.value != "" then
              if |segs| > 1 && segs[|segs| - 2] == "edit" then last == "Chỉnh sửa " + dynamicSegment.value
              else last == dynamicSegment.value
            else last == NameOrSegment(segs[|segs| - 1])
  {
  }

  /** Following crumb `i` leads to a path whose own segments are the first `i + 1` segments. */
  lemma {:induction false} CrumbTargetSegments(pathname: string, dynamicSegment: Option<string>, i: nat)
    requires i < |Segments(pathname)|
    ensures Segments(Trail(pathname, dynamicSegment)[i].to) == Segments(pathname)[..i + 1]
  {
    var segs := Segments(pathname);
    var prefix := segs[..i + 1];
    assert forall k :: 0 <= k < |prefix| ==> '/' !in prefix[k] && prefix[k] != "";
    SegmentsOfJoin(prefix);
  }
}
