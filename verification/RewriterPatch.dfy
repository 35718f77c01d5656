/**
 JSON patches on labels and annotations (section 4 of RFC 6902): renaming a patch and applying it to
 the renamed object comes to the same as applying the patch and renaming the result.
 */
module RewriterPatch {
  import opened Basics
  import opened RewriterText
  import opened RewriterNames
  import opened RewriterMaps
  import opened RewriterPointer

  const LABELS := "/metadata/labels"
  const ANNOTATIONS := "/metadata/annotations"

  datatype Value = Text(text: string) | Table(table: map<string, string>)

  datatype Op =
    | Add(path: string, value: Value)
    | Remove(path: string)
    | Replace(path: string, value: Value)
    | Test(path: string, value: Value)
    | Move(from: string, path: string)
    | Copy(from: string, path: string)

  /** The two maps of an object's metadata; either may be absent. */
  datatype Meta = Meta(labels: Option<map<string, string>>, annotations: Option<map<string, string>>)

  datatype Rewriters = Rewriters(labels: Rewriter, annotations: Rewriter)

  /** What a path points at. */
  datatype Target = AllLabels | AllAnnotations | Label(key: string) | Annotation(key: string) | Elsewhere

  function KeyOf(path: string, table: string): Option<string> {
    var start := table + "/";
    if HasPrefix(path, start) && ValidToken(TrimPrefix(path, start)) then Some(Decode(TrimPrefix(path, start))) else None
  }

  function TargetOf(path: string): Target {
    if path == LABELS then AllLabels
    else if path == ANNOTATIONS then AllAnnotations
    else if KeyOf(path, LABELS).Some? then Label(KeyOf(path, LABELS).value)
    else if KeyOf(path, ANNOTATIONS).Some? then Annotation(KeyOf(path, ANNOTATIONS).value)
    else Elsewhere
  }

  // ----- applying a patch -----

  /** The value a target holds, if it is there. */
  function Lookup(m: Meta, t: Target): Option<Value> {
    match t
    case AllLabels => if m.labels.Some? then Some(Table(m.labels.value)) else None
    case AllAnnotations => if m.annotations.Some? then Some(Table(m.annotations.value)) else None
    case Label(k) => if m.labels.Some? && k in m.labels.value then Some(Text(m.labels.value[k])) else None
    case Annotation(k) => if m.annotations.Some? && k in m.annotations.value then Some(Text(m.annotations.value[k])) else None
    case Elsewhere => None
  }

  /** Writes a value; the map that is to hold it must be there, and values must be of its kind. */
  function Put(m: Meta, t: Target, v: Value): Option<Meta> {
    match t
    case AllLabels => if v.Table? then Some(m.(labels := Some(v.table))) else None
    case AllAnnotations => if v.Table? then Some(m.(annotations := Some(v.table))) else None
    case Label(k) => if m.labels.Some? && v.Text? then Some(m.(labels := Some(m.labels.value[k := v.text]))) else None
    case Annotation(k) =>
      if m.annotations.Some? && v.Text? then Some(m.(annotations := Some(m.annotations.value[k := v.text]))) else None
    case Elsewhere => None
  }

  function Delete(m: Meta, t: Target): Option<Meta> {
    if Lookup(m, t).None? then None
    else
      match t
      case AllLabels => Some(m.(labels := None))
      case AllAnnotations => Some(m.(annotations := None))
      case Label(k) => Some(m.(labels := Some(m.labels.value - {k})))
      case Annotation(k) => Some(m.(annotations := Some(m.annotations.value - {k})))
      case Elsewhere => None
  }

  /** A move or a copy within the two maps. */
  function Transfer(m: Meta, f: Target, t: Target, move: bool): Option<Meta> {
    if f.Elsewhere? || t.Elsewhere? then Some(m)
    else if Lookup(m, f).None? then None
    else Put(if move then Delete(m, f).value else m, t, Lookup(m, f).value)
  }

  /** One operation; None if it fails. Operations on the rest of the object leave the two maps alone. */
  function Apply(m: Meta, op: Op): Option<Meta> {
    var t := TargetOf(op.path);
    match op
    case Add(_, v) => if t.Elsewhere? then Some(m) else Put(m, t, v)
    case Remove(_) => if t.Elsewhere? then Some(m) else Delete(m, t)
    case Replace(_, v) => if t.Elsewhere? then Some(m) else if Lookup(m, t).None? then None else Put(m, t, v)
    case Test(_, v) => if t.Elsewhere? || Lookup(m, t) == Some(v) then Some(m) else None
    case Move(from, _) => Transfer(m, TargetOf(from), t, true)
    case Copy(from, _) => Transfer(m, TargetOf(from), t, false)
  }

  function ApplyAll(m: Meta, ops: seq<Op>): Option<Meta>
    decreases |ops|
  {
    if ops == [] then Some(m)
    else
      var first := Apply(m, ops[0]);
      if first.None? then None else ApplyAll(first.value, ops[1..])
  }

  // ----- renaming a patch -----

  function NewName(rw: Rewriter, k: string): string {
    Rename(rw, k, "").0
  }

  function NewTable(rw: Rewriter, m: map<string, string>): map<string, string> {
    if NoMerge(m, Renaming(rw)) then Image(m, Renaming(rw)) else m
  }

  function NewPath(rws: Rewriters, path: string): string {
    if HasPrefix(path, LABELS + "/") then
      var name := Decode(TrimPrefix(path, LABELS + "/"));
      if NewName(rws.labels, name) != name then LABELS + "/" + Encode(NewName(rws.labels, name)) else path
    else if HasPrefix(path, ANNOTATIONS + "/") then
      var anno := Decode(TrimPrefix(path, ANNOTATIONS + "/"));
      if NewName(rws.annotations, anno) != anno then ANNOTATIONS + "/" + Encode(NewName(rws.annotations, anno)) else path
    else path
  }

  function NewValue(rws: Rewriters, path: string, v: Value): Value {
    if v.Text? then v
    else if path == LABELS then Table(NewTable(rws.labels, v.table))
    else if path == ANNOTATIONS then Table(NewTable(rws.annotations, v.table))
    else v
  }

  /** The path and, for a whole map, the value are renamed; the place something is taken from is not. */
  function RenameOp(rws: Rewriters, op: Op): Op {
    match op
    case Add(path, v) => Add(NewPath(rws, path), NewValue(rws, path, v))
    case Remove(path) => Remove(NewPath(rws, path))
    case Replace(path, v) => Replace(NewPath(rws, path), NewValue(rws, path, v))
    case Test(path, v) => Test(NewPath(rws, path), NewValue(rws, path, v))
    case Move(from, path) => Move(from, NewPath(rws, path))
    case Copy(from, path) => Copy(from, NewPath(rws, path))
  }

  function RenamePatch(rws: Rewriters, ops: seq<Op>): (r: seq<Op>)
    ensures |r| == |ops| && forall i :: 0 <= i < |r| ==> r[i] == RenameOp(rws, ops[i])
  {
    seq(|ops|, i requires 0 <= i < |ops| => RenameOp(rws, ops[i]))
  }

  function RenameMeta(rws: Rewriters, m: Meta): Meta {
    Meta(if m.labels.Some? then Some(NewTable(rws.labels, m.labels.value)) else None,
         if m.annotations.Some? then Some(NewTable(rws.annotations, m.annotations.value)) else None)
  }

  function RenameTarget(rws: Rewriters, t: Target): Target {
    match t
    case Label(k) => Label(NewName(rws.labels, k))
    case Annotation(k) => Annotation(NewName(rws.annotations, k))
    case _ => t
  }

  // ----- what a client can see -----

  predicate Ready(rws: Rewriters) {
    && WellFormed(rws.labels) && ValueFree(rws.labels)
    && WellFormed(rws.annotations) && ValueFree(rws.annotations)
  }

  predicate Shown(rw: Rewriter, m: map<string, string>) {
    forall n :: n in m ==> ClientVisible(rw, n, "")
  }

  predicate VisibleMeta(rws: Rewriters, m: Meta) {
    && (m.labels.Some? ==> Shown(rws.labels, m.labels.value))
    && (m.annotations.Some? ==> Shown(rws.annotations, m.annotations.value))
  }

  predicate VisibleTarget(rws: Rewriters, t: Target) {
    match t
    case Label(k) => ClientVisible(rws.labels, k, "")
    case Annotation(k) => ClientVisible(rws.annotations, k, "")
    case _ => true
  }

  predicate VisibleValue(rws: Rewriters, path: string, v: Value) {
    v.Table? ==>
      && (path == LABELS ==> Shown(rws.labels, v.table))
      && (path == ANNOTATIONS ==> Shown(rws.annotations, v.table))
  }

  /** Tokens under the two maps are valid ones. */
  predicate ValidPath(path: string) {
    && (HasPrefix(path, LABELS + "/") ==> ValidToken(TrimPrefix(path, LABELS + "/")))
    && (HasPrefix(path, ANNOTATIONS + "/") ==> ValidToken(TrimPrefix(path, ANNOTATIONS + "/")))
  }

  /** A path to an object that holds the two maps, so that what is written there replaces them. */
  predicate Above(path: string) {
    path == "" || path == "/metadata"
  }

  /** A path a client can send. */
  predicate SentPath(rws: Rewriters, path: string) {
    ValidPath(path) && !Above(path) && VisibleTarget(rws, TargetOf(path))
  }

  /** Both maps give every name a client sees in the first the same new name. */
  ghost predicate Alike(rw: Rewriter, rw': Rewriter) {
    forall n :: ClientVisible(rw, n, "") ==> NewName(rw, n) == NewName(rw', n)
  }

  /** When a move or a copy can be renamed although the place it takes from is left as it is: a single
      key must have the same name on the server, unless it goes to where no text can stand; one whole map
      may only become the other if both rename alike. */
  ghost predicate TransferOk(rws: Rewriters, from: string, path: string) {
    match (TargetOf(from), TargetOf(path))
    case (AllLabels, AllAnnotations) => Alike(rws.labels, rws.annotations)
    case (AllAnnotations, AllLabels) => Alike(rws.annotations, rws.labels)
    case (Label(_), Label(_)) => NewPath(rws, from) == from
    case (Label(_), Annotation(_)) => NewPath(rws, from) == from
    case (Annotation(_), Label(_)) => NewPath(rws, from) == from
    case (Annotation(_), Annotation(_)) => NewPath(rws, from) == from
    case _ => true
  }

  /** An operation a client can send, naming what it sees. A transfer stays within the two maps or
      outside of them, and is one that can be renamed. */
  ghost predicate VisibleOp(rws: Rewriters, op: Op) {
    && SentPath(rws, op.path)
    && (op.Add? || op.Replace? || op.Test? ==> VisibleValue(rws, op.path, op.value))
    && (op.Move? || op.Copy? ==>
          && SentPath(rws, op.from) && (TargetOf(op.from).Elsewhere? <==> TargetOf(op.path).Elsewhere?)
          && TransferOk(rws, op.from, op.path))
  }
}
