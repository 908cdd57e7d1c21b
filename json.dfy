/**
 * The parsed JSON tree that System.Text.Json.Nodes hands the intake code,
 * the two ways the code reads it (raw navigation and the C# indexers with
 * their null-conditional chains), and the one way it writes it: setting a
 * member of an object somewhere inside the tree.
 */
module Json {
  import opened Wrappers

  /** A JSON value. Numbers keep their source text; objects keep their members in order. */
  datatype Json =
    | JNull
    | JBool(b: bool)
    | JNumber(text: string)
    | JString(s: string)
    | JArray(items: seq<Json>)
    | JObject(members: seq<(string, Json)>)

  /** One step from a node to a child: an object member by name or an array element by position. */
  datatype PathStep = Member(key: string) | Element(index: nat)

  type Path = seq<PathStep>

  /** Position of the first member named key, or |members| when there is none. */
  function FindKey(members: seq<(string, Json)>, key: string): (i: nat)
    ensures i <= |members|
    ensures i < |members| ==> members[i].0 == key
    ensures forall j | 0 <= j < i :: members[j].0 != key
  {
    if members == [] then 0
    else if members[0].0 == key then 0
    else 1 + FindKey(members[1..], key)
  }

  /**
   * JsonElement.TryGetProperty / GetProperty: the value of the LAST member
   * named key (a parsed JsonDocument matches the last of repeated names).
   */
  function LastValue(members: seq<(string, Json)>, key: string): (r: Option<Json>)
    ensures r.None? <==> forall i | 0 <= i < |members| :: members[i].0 != key
    ensures r.Some? ==> exists i | 0 <= i < |members| :: members[i] == (key, r.value)
                          && forall k | i < k < |members| :: members[k].0 != key
  {
    if members == [] then None
    else if members[|members| - 1].0 == key then Some(members[|members| - 1].1)
    else
      var r := LastValue(members[..|members| - 1], key);
      LastValueEarlier(members, key, r);
      r
  }

  /** Helper for LastValue: when the last member has another name, the answer is that of the members before it. */
  lemma LastValueEarlier(members: seq<(string, Json)>, key: string, r: Option<Json>)
    requires members != [] && members[|members| - 1].0 != key
    requires var init := members[..|members| - 1];
             && (r.None? <==> forall i | 0 <= i < |init| :: init[i].0 != key)
             && (r.Some? ==> exists i | 0 <= i < |init| :: init[i] == (key, r.value)
                                && forall k | i < k < |init| :: init[k].0 != key)
    ensures r.None? <==> forall i | 0 <= i < |members| :: members[i].0 != key
    ensures r.Some? ==> exists i | 0 <= i < |members| :: members[i] == (key, r.value)
                          && forall k | i < k < |members| :: members[k].0 != key
  {
    var init := members[..|members| - 1];
    assert forall i | 0 <= i < |init| :: init[i] == members[i];
    if r.Some? {
      var i :| 0 <= i < |init| && init[i] == (key, r.value) && forall k | i < k < |init| :: init[k].0 != key;
      assert members[i] == (key, r.value);
      assert forall k | i < k < |members| :: members[k].0 != key;
    }
  }

  /** The child one step away, if there is one (a JSON null child is a child). */
  function Child(j: Json, step: PathStep): Option<Json> {
    match step
    case Member(key) =>
      if j.JObject? && FindKey(j.members, key) < |j.members| then Some(j.members[FindKey(j.members, key)].1)
      else None
    case Element(i) =>
      if j.JArray? && i < |j.items| then Some(j.items[i]) else None
  }

  /** The node at the end of a path, if the path leads anywhere. */
  function Select(j: Json, p: Path): Option<Json>
    decreases |p|
  {
    if p == [] then Some(j)
    else
      match Child(j, p[0])
      case None => None
      case Some(c) => Select(c, p[1..])
  }

  /**
   * The tree with the node at p replaced by v. The last step may also name a
   * member the object does not have yet, which is then appended, as the
   * JsonObject indexer's setter does. A path that leads nowhere changes nothing.
   */
  function Update(j: Json, p: Path, v: Json): Json
    decreases |p|
  {
    if p == [] then v
    else
      match p[0]
      case Member(key) =>
        if !j.JObject? then j
        else
          var i := FindKey(j.members, key);
          if i < |j.members| then JObject(j.members[i := (key, Update(j.members[i].1, p[1..], v))])
          else if |p| == 1 then JObject(j.members + [(key, v)])
          else j
      case Element(i) =>
        if j.JArray? && i < |j.items| then JArray(j.items[i := Update(j.items[i], p[1..], v)])
        else j
  }

  /** The paths that Update can write: existing nodes and new members of existing objects. */
  predicate Writable(j: Json, p: Path)
    decreases |p|
  {
    if p == [] then true
    else
      match Child(j, p[0])
      case Some(c) => Writable(c, p[1..])
      case None => |p| == 1 && p[0].Member? && j.JObject?
  }

  /** Two paths that part ways: neither is a prefix of the other. */
  predicate Diverge(p: Path, q: Path)
    decreases |p|
  {
    p != [] && q != [] && (p[0] != q[0] || Diverge(p[1..], q[1..]))
  }

  /** FindKey looks only at names, so replacing values does not move it. */
  lemma FindKeySameNames(ms: seq<(string, Json)>, ms': seq<(string, Json)>, key: string)
    requires |ms| == |ms'|
    requires forall i | 0 <= i < |ms| :: ms[i].0 == ms'[i].0
    ensures FindKey(ms, key) == FindKey(ms', key)
  {
  }

  /** Appending a member named other leaves every other name where it was. */
  lemma FindKeyAppend(ms: seq<(string, Json)>, other: string, v: Json, key: string)
    requires key != other
    ensures FindKey(ms + [(other, v)], key) == if FindKey(ms, key) < |ms| then FindKey(ms, key) else |ms| + 1
  {
    var ms' := ms + [(other, v)];
    assert ms'[|ms|].0 == other;
    assert forall j | 0 <= j < |ms| :: ms'[j] == ms[j];
  }

  /** A member appended under a name the object lacks is the one that name finds. */
  lemma FindKeyAppendNew(ms: seq<(string, Json)>, key: string, v: Json)
    requires FindKey(ms, key) == |ms|
    ensures FindKey(ms + [(key, v)], key) == |ms|
  {
    var ms' := ms + [(key, v)];
    assert ms'[|ms|].0 == key;
    assert forall j | 0 <= j < |ms| :: ms'[j] == ms[j];
  }

  /** Every child other than the one on p's first step is untouched by Update. */
  lemma {:induction false} ChildAfterUpdate(j: Json, p: Path, v: Json, step: PathStep)
    requires p != [] && step != p[0]
    ensures Child(Update(j, p, v), step) == Child(j, step)
  {
    match p[0]
    case Member(key) =>
      if j.JObject? {
        var i := FindKey(j.members, key);
        if i < |j.members| {
          var ms' := j.members[i := (key, Update(j.members[i].1, p[1..], v))];
          FindKeySameNames(j.members, ms', if step.Member? then step.key else key);
        } else if |p| == 1 && step.Member? {
          FindKeyAppend(j.members, key, v, step.key);
        }
      }
    case Element(i) =>
  }

  /** After Update, the path leads to the new value. */
  lemma {:induction false} UpdateThenSelect(j: Json, p: Path, v: Json)
    requires Writable(j, p)
    ensures Select(Update(j, p, v), p) == Some(v)
    decreases |p|
  {
    if p != [] {
      match p[0]
      case Member(key) =>
        var i := FindKey(j.members, key);
        if i < |j.members| {
          var inner := Update(j.members[i].1, p[1..], v);
          var ms' := j.members[i := (key, inner)];
          FindKeySameNames(j.members, ms', key);
          assert Child(Update(j, p, v), p[0]) == Some(inner);
          UpdateThenSelect(j.members[i].1, p[1..], v);
        } else {
          FindKeyAppendNew(j.members, key, v);
        }
      case Element(i) =>
        var inner := Update(j.items[i], p[1..], v);
        assert Child(Update(j, p, v), p[0]) == Some(inner);
        UpdateThenSelect(j.items[i], p[1..], v);
    }
  }

  /** Update changes nothing that lies off the updated path. */
  lemma {:induction false} UpdateElsewhere(j: Json, p: Path, q: Path, v: Json)
    requires Diverge(p, q)
    ensures Select(Update(j, p, v), q) == Select(j, q)
    decreases |p|
  {
    if p[0] != q[0] {
      ChildAfterUpdate(j, p, v, q[0]);
    } else {
      match p[0]
      case Member(key) =>
        if j.JObject? && FindKey(j.members, key) < |j.members| {
          var i := FindKey(j.members, key);
          var ms' := j.members[i := (key, Update(j.members[i].1, p[1..], v))];
          FindKeySameNames(j.members, ms', key);
          UpdateElsewhere(j.members[i].1, p[1..], q[1..], v);
        }
      case Element(i) =>
        if j.JArray? && i < |j.items| {
          UpdateElsewhere(j.items[i], p[1..], q[1..], v);
        }
    }
  }

  /** Writing the value a node already holds gives back the same tree. */
  lemma {:induction false} UpdateSame(j: Json, p: Path, v: Json)
    requires Select(j, p) == Some(v)
    ensures Update(j, p, v) == j
    decreases |p|
  {
    if p != [] {
      match p[0]
      case Member(key) =>
        var i := FindKey(j.members, key);
        UpdateSame(j.members[i].1, p[1..], v);
        assert j.members[i := (key, j.members[i].1)] == j.members;
      case Element(i) =>
        UpdateSame(j.items[i], p[1..], v);
        assert j.items[i := j.items[i]] == j.items;
    }
  }

  /** An existing node, and a new member of an existing object, can be written. */
  lemma {:induction false} SelectWritable(j: Json, p: Path, key: string)
    requires Select(j, p).Some?
    ensures Writable(j, p)
    ensures Select(j, p).value.JObject? ==> Writable(j, p + [Member(key)])
    decreases |p|
  {
    if p != [] {
      var c := Child(j, p[0]).value;
      SelectWritable(c, p[1..], key);
      assert (p + [Member(key)])[1..] == p[1..] + [Member(key)];
    }
  }

  /** A one-step path reads the child. */
  lemma SelectOne(j: Json, step: PathStep)
    ensures Select(j, [step]) == Child(j, step)
  {
    if Child(j, step).Some? {
      assert Select(Child(j, step).value, [step][1..]) == Some(Child(j, step).value);
    }
  }

  /** Select along p + q is Select along q from wherever p leads. */
  lemma {:induction false} SelectAppend(j: Json, p: Path, q: Path)
    ensures Select(j, p + q) == if Select(j, p).Some? then Select(Select(j, p).value, q) else None
    decreases |p|
  {
    if p != [] {
      assert (p + q)[0] == p[0] && (p + q)[1..] == p[1..] + q;
      if Child(j, p[0]).Some? {
        SelectAppend(Child(j, p[0]).value, p[1..], q);
      }
    } else {
      assert p + q == q;
    }
  }

  /**
   * Setting one member of an object inside the tree: afterwards that member
   * holds the new value, and every path that parts from it reads as before.
   */
  lemma SetMemberEffect(j: Json, owner: Path, key: string, v: Json)
    requires Select(j, owner).Some? && Select(j, owner).value.JObject?
    ensures Select(Update(j, owner + [Member(key)], v), owner + [Member(key)]) == Some(v)
    ensures forall q | Diverge(owner + [Member(key)], q) ::
              Select(Update(j, owner + [Member(key)], v), q) == Select(j, q)
  {
    SelectWritable(j, owner, key);
    UpdateThenSelect(j, owner + [Member(key)], v);
    forall q | Diverge(owner + [Member(key)], q)
      ensures Select(Update(j, owner + [Member(key)], v), q) == Select(j, q)
    {
      UpdateElsewhere(j, owner + [Member(key)], q, v);
    }
  }

  /**
   * What one C# indexer access on a non-null JsonNode gives: the child, a
   * null (a missing member, or a JSON null, which JsonNode holds as a null
   * reference), or an exception.
   */
  datatype Nav = Threw | Missing | Found(node: Json)

  /**
   * node[step]: the string indexer calls AsObject() and the int indexer
   * AsArray(), which throw on any other kind of node; the int indexer also
   * throws when the position is out of range; a missing member reads as null.
   */
  function Index(n: Json, step: PathStep): (r: Nav)
    ensures r.Found? <==> Child(n, step).Some? && Child(n, step).value != JNull
    ensures r.Found? ==> Child(n, step) == Some(r.node)
    ensures r.Threw? <==> (if step.Member? then !n.JObject? else !(n.JArray? && step.index < |n.items|))
  {
    match step
    case Member(key) =>
      if !n.JObject? then Threw
      else if Child(n, step) == None || Child(n, step) == Some(JNull) then Missing
      else Found(Child(n, step).value)
    case Element(i) =>
      if !(n.JArray? && i < |n.items|) then Threw
      else if n.items[i] == JNull then Missing
      else Found(n.items[i])
  }

  /** A chain of null-conditional accesses `r?[s1]?[s2]...`: a null stops the chain, an exception ends it. */
  function Walk(r: Nav, p: Path): Nav
    decreases |p|
  {
    if p == [] || !r.Found? then r else Walk(Index(r.node, p[0]), p[1..])
  }

  /** A chain of C# accesses succeeds exactly when the path leads to a node that is not JSON null. */
  lemma {:induction false} WalkFinds(j: Json, p: Path)
    requires j != JNull
    ensures Walk(Found(j), p).Found? <==> Select(j, p).Some? && Select(j, p).value != JNull
    ensures Walk(Found(j), p).Found? ==> Select(j, p) == Some(Walk(Found(j), p).node)
    decreases |p|
  {
    if p != [] {
      match Child(j, p[0])
      case None =>
        assert !Index(j, p[0]).Found?;
        WalkStops(Index(j, p[0]), p[1..]);
      case Some(c) =>
        if c == JNull {
          assert Index(j, p[0]) == Missing;
          WalkStops(Missing, p[1..]);
          if p[1..] != [] { assert Child(JNull, p[1..][0]) == None; }
        } else {
          WalkFinds(c, p[1..]);
        }
    }
  }

  /** A chain can be walked in two parts. */
  lemma {:induction false} WalkAppend(r: Nav, p: Path, q: Path)
    ensures Walk(r, p + q) == Walk(Walk(r, p), q)
    decreases |p|
  {
    if p == [] {
      assert p + q == q;
    } else if !r.Found? {
      WalkStops(r, p + q);
      WalkStops(r, p);
      WalkStops(r, q);
    } else {
      assert (p + q)[0] == p[0] && (p + q)[1..] == p[1..] + q;
      WalkAppend(Index(r.node, p[0]), p[1..], q);
    }
  }

  /** Once a chain has yielded null or thrown, the rest of it changes nothing. */
  lemma {:induction false} WalkStops(r: Nav, p: Path)
    requires !r.Found?
    ensures Walk(r, p) == r
  {
  }

  /** JsonNode.ToString(): the text of a string value, the JSON text of anything else. */
  function NodeText(n: Json): string {
    match n
    case JString(s) => s
    case _ => Render(n)
  }

  /** JSON text of a value (compact; string contents are not escaped). */
  function Render(j: Json): string {
    match j
    case JNull => "null"
    case JBool(b) => if b then "true" else "false"
    case JNumber(t) => t
    case JString(s) => "\"" + s + "\""
    case JArray(items) => "[" + Join(seq(|items|, i requires 0 <= i < |items| => Render(items[i]))) + "]"
    case JObject(ms) =>
      "{" + Join(seq(|ms|, i requires 0 <= i < |ms| => "\"" + ms[i].0 + "\":" + Render(ms[i].1))) + "}"
  }

  /** The parts separated by commas. */
  function Join(parts: seq<string>): string {
    if parts == [] then ""
    else if |parts| == 1 then parts[0]
    else parts[0] + "," + Join(parts[1..])
  }

  /**
   * A parsed document whose tree the code changes in place: the normalisers
   * assign one member of one node (`midiaNode["link"] = ...`) and then
   * serialise the whole tree.
   */
  class JsonDocument {
    var root: Json

    constructor (root: Json)
      ensures this.root == root
    {
      this.root := root;
    }

    /** node[key] = value, for the node the path owner reaches. */
    method SetMember(owner: Path, key: string, value: Json)
      modifies this
      ensures root == Update(old(root), owner + [Member(key)], value)
    {
      root := Update(root, owner + [Member(key)], value);
    }
  }
}
