/**
 * The configuration loader: a default settings tree, an optional user
 * settings tree, and the deep merge that lays the second over the first.
 */
module Config {
  import opened Wrappers

  /** A value that is not a mapping: what a settings document holds at its leaves. */
  datatype Value = Null | Bool(b: bool) | Int(i: int) | Str(s: string) | List(items: seq<Tree>)

  /** A settings tree: a leaf value or a mapping from names to subtrees. */
  datatype Tree = Leaf(v: Value) | Node(children: map<string, Tree>)

  /** A settings mapping, the type of a loaded configuration. */
  type Settings = map<string, Tree>

  /**
   * The deep merge of `override` onto `base`. Where both sides hold a mapping
   * under the same key the two mappings are merged in turn; in every other
   * case the override value replaces the base value wholesale.
   */
  function Merge(base: Settings, override: Settings): (r: Settings)
    decreases Node(override)
    ensures r.Keys == base.Keys + override.Keys
  {
    map k | k in base.Keys + override.Keys ::
      if k !in override then base[k]
      else if k in base && base[k].Node? && override[k].Node? then
        Node(Merge(base[k].children, override[k].children))
      else override[k]
  }

  /**
   * The copy-then-loop merge: start from a copy of `base`, then visit each key
   * of `override` once, merging recursively where both values are mappings and
   * overwriting otherwise.
   */
  method DeepMergeDicts(base: Settings, override: Settings) returns (result: Settings)
    decreases Node(override)
    ensures result == Merge(base, override)
  {
    result := base;
    var pending := override.Keys;
    while pending != {}
      invariant pending <= override.Keys
      invariant result.Keys == base.Keys + (override.Keys - pending)
      invariant forall k :: k in result && k in pending ==> result[k] == base[k]
      invariant forall k :: k in result && k !in pending ==> result[k] == Merge(base, override)[k]
      decreases pending
    {
      var key :| key in pending;
      var value := override[key];
      if key in result && result[key].Node? && value.Node? {
        var merged := DeepMergeDicts(result[key].children, value.children);
        result := result[key := Node(merged)];
      } else {
        result := result[key := value];
      }
      pending := pending - {key};
    }
  }

  /** Per-key meaning of the merge: which side each result value comes from. */
  lemma MergeAt(base: Settings, override: Settings, k: string)
    requires k in base || k in override
    ensures k in Merge(base, override)
    ensures k !in override ==> Merge(base, override)[k] == base[k]
    ensures k in override && k in base && base[k].Node? && override[k].Node? ==>
      Merge(base, override)[k] == Node(Merge(base[k].children, override[k].children))
    ensures k in override && !(k in base && base[k].Node? && override[k].Node?) ==>
      Merge(base, override)[k] == override[k]
  {
  }

  /** An empty override leaves the base as it is. */
  lemma MergeEmptyOverride(base: Settings)
    ensures Merge(base, map[]) == base
  {
  }

  /** Merging a tree onto itself gives the tree back. */
  lemma {:induction false} MergeIdempotent(base: Settings)
    decreases Node(base)
    ensures Merge(base, base) == base
  {
    forall k | k in base
      ensures Merge(base, base)[k] == base[k]
    {
      if base[k].Node? {
        MergeIdempotent(base[k].children);
      }
    }
  }

  /** With disjoint key sets the merge is the plain union of the two mappings. */
  lemma MergeDisjoint(base: Settings, override: Settings)
    requires base.Keys !! override.Keys
    ensures Merge(base, override) == base + override
  {
  }

  /** A nested override keeps the sibling settings of the mapping it lands in. */
  lemma NestedMergeExample()
    ensures Merge(map["a" := Node(map["x" := Leaf(Int(1)), "y" := Leaf(Int(2))])],
                  map["a" := Node(map["y" := Leaf(Int(9))])])
         == map["a" := Node(map["x" := Leaf(Int(1)), "y" := Leaf(Int(9))])]
  {
    var inner := Merge(map["x" := Leaf(Int(1)), "y" := Leaf(Int(2))], map["y" := Leaf(Int(9))]);
    assert inner == map["x" := Leaf(Int(1)), "y" := Leaf(Int(9))];
  }

  /** A scalar override replaces a whole mapping. */
  lemma ScalarOverMappingExample()
    ensures Merge(map["a" := Node(map["x" := Leaf(Int(1))])], map["a" := Leaf(Int(5))])
         == map["a" := Leaf(Int(5))]
  {
  }

  /** The tree reached by following the non-empty key path `p`, if any. */
  function Lookup(c: Settings, p: seq<string>): (r: Option<Tree>)
    decreases |p|
  {
    if |p| == 0 || p[0] !in c then None
    else if |p| == 1 then Some(c[p[0]])
    else if c[p[0]].Node? then Lookup(c[p[0]].children, p[1..])
    else None
  }

  /**
   * Whether `override` replaces something on the path `p`: it holds a key of
   * the path either at the path's end or with a non-mapping value.
   */
  predicate Mentions(override: Settings, p: seq<string>)
    decreases |p|
  {
    |p| > 0 && p[0] in override &&
    (|p| == 1 || !override[p[0]].Node? || Mentions(override[p[0]].children, p[1..]))
  }

  /** A setting of the base that the override does not mention survives the merge. */
  lemma {:induction false} MergeKeepsUnmentioned(base: Settings, override: Settings, p: seq<string>)
    requires Lookup(base, p).Some?
    requires !Mentions(override, p)
    decreases |p|
    ensures Lookup(Merge(base, override), p) == Lookup(base, p)
  {
    var k := p[0];
    MergeAt(base, override, k);
    if |p| > 1 && k in override {
      MergeKeepsUnmentioned(base[k].children, override[k].children, p[1..]);
    }
  }

  /** Every leaf setting of the override is found unchanged in the merge. */
  lemma {:induction false} MergeKeepsOverrideLeaf(base: Settings, override: Settings, p: seq<string>)
    requires Lookup(override, p).Some? && Lookup(override, p).value.Leaf?
    decreases |p|
    ensures Lookup(Merge(base, override), p) == Lookup(override, p)
  {
    var k := p[0];
    MergeAt(base, override, k);
    if |p| > 1 && k in base && base[k].Node? {
      MergeKeepsOverrideLeaf(base[k].children, override[k].children, p[1..]);
    }
  }

  /**
   * A leaf setting of the merge comes from the override, or from the base at
   * a path the override does not mention.
   */
  lemma {:induction false} MergeLeafOrigin(base: Settings, override: Settings, p: seq<string>)
    requires Lookup(Merge(base, override), p).Some?
    requires Lookup(Merge(base, override), p).value.Leaf?
    decreases |p|
    ensures Lookup(Merge(base, override), p) == Lookup(override, p) ||
            (Lookup(Merge(base, override), p) == Lookup(base, p) && !Mentions(override, p))
  {
    var k := p[0];
    MergeAt(base, override, k);
    if |p| > 1 && k in override && k in base && base[k].Node? && override[k].Node? {
      MergeLeafOrigin(base[k].children, override[k].children, p[1..]);
    }
  }

  /** A leaf of the merge, characterised in terms of the two inputs. */
  lemma MergeLeaf(base: Settings, override: Settings, p: seq<string>, v: Value)
    ensures Lookup(Merge(base, override), p) == Some(Leaf(v)) <==>
            Lookup(override, p) == Some(Leaf(v)) ||
            (Lookup(base, p) == Some(Leaf(v)) && !Mentions(override, p))
  {
    if Lookup(Merge(base, override), p) == Some(Leaf(v)) {
      MergeLeafOrigin(base, override, p);
    }
    if Lookup(override, p) == Some(Leaf(v)) {
      MergeKeepsOverrideLeaf(base, override, p);
    } else if Lookup(base, p) == Some(Leaf(v)) && !Mentions(override, p) {
      MergeKeepsUnmentioned(base, override, p);
    }
  }

  /** What reading one settings file gives: no file, a parse error, or a parsed document. */
  datatype Source = Absent | Unparsable | Parsed(doc: Tree)

  /** Why loading stops; each stands for the exception the loader lets escape. */
  datatype LoadError =
    | DefaultMissing      // the default file cannot be opened
    | DefaultUnparsable   // the default file is not valid YAML
    | UserUnparsable      // the user file exists but is not valid YAML
    | DefaultNotMapping   // the default document is not a mapping and cannot be copied
    | UserNotMapping      // the override is not a mapping and has no items to visit

  /** Python truthiness of a parsed document; an empty document parses to the null leaf. */
  predicate Truthy(t: Tree) {
    match t
    case Node(m) => m != map[]
    case Leaf(Null) => false
    case Leaf(Bool(b)) => b
    case Leaf(Int(i)) => i != 0
    case Leaf(Str(s)) => s != ""
    case Leaf(List(xs)) => xs != []
  }

  /**
   * The override the loader uses: an absent user file, and a user document
   * that is empty or otherwise falsy, become the empty mapping.
   */
  function UserOverride(user: Source): (r: Result<Tree, LoadError>)
    ensures r.Err? <==> user.Unparsable?
    ensures r.Err? ==> r.error == UserUnparsable
    ensures r.Ok? && !(user.Parsed? && Truthy(user.doc)) ==> r.value == Node(map[])
    ensures r.Ok? && user.Parsed? && Truthy(user.doc) ==> r.value == user.doc
  {
    match user
    case Absent => Ok(Node(map[]))
    case Unparsable => Err(UserUnparsable)
    case Parsed(t) => Ok(if Truthy(t) then t else Node(map[]))
  }

  /** The effective configuration: the user override merged onto the default settings. */
  function LoadConfig(default: Source, user: Source): (r: Result<Settings, LoadError>)
    ensures default.Absent? ==> r == Err(DefaultMissing)
    ensures default.Unparsable? ==> r == Err(DefaultUnparsable)
    ensures default.Parsed? && user.Unparsable? ==> r == Err(UserUnparsable)
    ensures default.Parsed? && !default.doc.Node? && !user.Unparsable? ==> r == Err(DefaultNotMapping)
    ensures r.Ok? ==> default.Parsed? && default.doc.Node? && r.value.Keys >= default.doc.children.Keys
  {
    match default
    case Absent => Err(DefaultMissing)
    case Unparsable => Err(DefaultUnparsable)
    case Parsed(d) =>
      match UserOverride(user)
      case Err(e) => Err(e)
      case Ok(o) =>
        if !d.Node? then Err(DefaultNotMapping)
        else if !o.Node? then Err(UserNotMapping)
        else Ok(Merge(d.children, o.children))
  }

  /**
   * Without a usable user file (none, or one whose document is empty or
   * falsy) the loaded configuration is the default one.
   */
  lemma LoadWithoutUserIsDefault(defaults: Settings, user: Source)
    requires user.Absent? || (user.Parsed? && !Truthy(user.doc))
    ensures LoadConfig(Parsed(Node(defaults)), user) == Ok(defaults)
  {
    MergeEmptyOverride(defaults);
  }

  /** Loading succeeds exactly when both documents parse to mappings (modulo falsy user documents). */
  lemma LoadOutcome(default: Source, user: Source)
    ensures LoadConfig(default, user).Ok? <==>
      default.Parsed? && default.doc.Node? &&
      (user.Absent? || (user.Parsed? && (!Truthy(user.doc) || user.doc.Node?)))
    ensures default.Parsed? && default.doc.Node? && user.Parsed? && user.doc.Node? ==>
      LoadConfig(default, user) == Ok(Merge(default.doc.children, user.doc.children))
    ensures LoadConfig(default, user).Ok? ==>
      LoadConfig(default, user).value.Keys >= default.doc.children.Keys
  {
    if default.Parsed? && default.doc.Node? && user.Parsed? && user.doc.Node? && !Truthy(user.doc) {
      MergeEmptyOverride(default.doc.children);
    }
  }
}
