/** The module graph of the source tree, and the rewriting of imports that follows it. */
module ImportRewriting {
  import opened PyStrings

  const SRC := "src"
  const ABS := "src."

  // ---------------------------------------------------------------- the module graph

  /** A Python file below the source directory: its directories and its name without the suffix. */
  datatype File = File(dirs: seq<string>, stem: string)

  const INIT := "__init__"

  function Full(parts: seq<string>): string { Join([SRC] + parts, '.') }

  lemma {:induction false} FullIs(parts: seq<string>)
    ensures parts == [] ==> Full(parts) == SRC
    ensures parts != [] ==> Full(parts) == ABS + Join(parts, '.')
  {
    assert ([SRC] + parts)[1..] == parts;
  }

  function Bare(full: string): string { if ABS <= full then full[|ABS|..] else full }

  /** Bare names stand for the module of that name below the source package; only the package itself stands for
      itself. */
  ghost predicate GraphLike(mapping: map<string, string>) {
    forall b | b in mapping :: mapping[b] == ABS + b || (b == SRC && mapping[b] == SRC)
  }

  /** The bare names that a file adds: that of a package file, or those of a module and of the packages above it. */
  ghost function BareNames(f: File): set<string> {
    if f.stem == INIT then {Bare(Full(f.dirs))}
    else set d | 1 <= d <= |f.dirs| + 1 :: Bare(Full((f.dirs + [f.stem])[..d]))
  }

  lemma {:induction false} BareIsJoin(parts: seq<string>)
    requires parts != []
    ensures Bare(Full(parts)) == Join(parts, '.') && Bare(Full([])) == "src"
  {
    FullIs(parts);
    FullIs([]);
  }

  /** A package file adds the dotted name of its directory, the source package itself its own name. */
  lemma {:induction false} PackageNames(dirs: seq<string>)
    ensures BareNames(File(dirs, "__init__")) == {if dirs == [] then "src" else Join(dirs, '.')}
  {
    BareIsJoin(if dirs == [] then [""] else dirs);
  }

  /** Any other file adds its dotted name and those of the packages above it. */
  lemma {:induction false} ModuleNames(dirs: seq<string>, stem: string, b: string)
    requires stem != "__init__"
    ensures b in BareNames(File(dirs, stem)) <==>
            exists parts: seq<string> :: parts != [] && parts <= dirs + [stem] && b == Join(parts, '.')
  {
    var all := dirs + [stem];
    assert INIT == "__init__";
    if b in BareNames(File(dirs, stem)) {
      var d :| 1 <= d <= |dirs| + 1 && b == Bare(Full(all[..d]));
      BareIsJoin(all[..d]);
      assert all[..d] <= all;
    }
    if parts: seq<string> :| parts != [] && parts <= all && b == Join(parts, '.') {
      BareIsJoin(parts);
      assert all[..|parts|] == parts;
    }
  }

  lemma {:induction false} GraphMore(mapping: map<string, string>, full: string)
    requires GraphLike(mapping) && (full == ABS + Bare(full) || (Bare(full) == SRC && full == SRC))
    ensures GraphLike(mapping[Bare(full) := full])
  {
    hide Bare;
  }

  class ModuleGraph {
    var bareToFull: map<string, string>
    var packageModules: seq<string>

    /** Every entry has its meaning, and every package has an entry. */
    ghost predicate Valid()
      reads this
    {
      GraphLike(bareToFull) && forall p | p in packageModules :: Bare(p) in bareToFull
    }

    constructor ()
      ensures Valid() && bareToFull == map[] && packageModules == []
    {
      bareToFull, packageModules := map[], [];
    }

    /** Adds a package or module file, with entries for all packages above a module; names already there keep a
        meaning. */
    method AddFile(f: File)
      requires Valid()
      modifies this
      ensures Valid() && bareToFull.Keys == old(bareToFull.Keys) + BareNames(f)
      ensures forall p | p in packageModules :: p in old(packageModules) || Bare(p) in BareNames(f)
      ensures forall p | p in old(packageModules) :: p in packageModules
    {
      hide Full, Bare, GraphLike;
      if f.stem == INIT {
        BareOfFull(f.dirs);
        var full := Full(f.dirs);
        packageModules := packageModules + [full];
        GraphMore(bareToFull, full);
        bareToFull := bareToFull[Bare(full) := full];
        return;
      }
      var parts := f.dirs + [f.stem];
      BareOfFull(parts);
      GraphMore(bareToFull, Full(parts));
      bareToFull := bareToFull[Bare(Full(parts)) := Full(parts)];
      assert parts[..|parts|] == parts;
      for depth := 1 to |parts| + 1
        invariant Valid()
        invariant forall p | p in packageModules :: p in old(packageModules) || Bare(p) in BareNames(f)
        invariant forall p | p in old(packageModules) :: p in packageModules
        invariant forall d | 1 <= d < depth :: Bare(Full(parts[..d])) in bareToFull
        invariant forall b | b in bareToFull :: b in old(bareToFull) || b in BareNames(f)
        invariant forall b | b in old(bareToFull) :: b in bareToFull
        invariant Bare(Full(parts)) in bareToFull
      {
        BareOfFull(parts[..depth]);
        var package := Full(parts[..depth]);
        assert Bare(package) in BareNames(f);
        if package !in packageModules {
          packageModules := packageModules + [package];
          if Bare(package) !in bareToFull {
            GraphMore(bareToFull, package);
            bareToFull := bareToFull[Bare(package) := package];
          }
        }
      }
    }

    /** Whatever the order of the files, every entry maps a bare name to the module of that name. */
    method Build(files: seq<File>)
      requires Valid()
      modifies this
      ensures Valid()
      ensures forall b :: b in bareToFull <==> b in old(bareToFull) || exists f | f in files :: b in BareNames(f)
    {
      hide Full, Bare, GraphLike, BareNames;
      for i := 0 to |files|
        invariant Valid()
        invariant forall b :: b in bareToFull <==> b in old(bareToFull) || exists k | 0 <= k < i ::
                  b in BareNames(files[k])
      {
        AddFile(files[i]);
      }
    }
  }

  lemma {:induction false} BareOfFull(parts: seq<string>)
    ensures Full(parts) == ABS + Bare(Full(parts)) || (Bare(Full(parts)) == SRC && Full(parts) == SRC)
  {
    FullIs(parts);
  }

  // ---------------------------------------------------------------- dotted names

  datatype Expr = Name(id: string) | Attribute(value: Expr, attr: string) | OtherExpr

  function DottedName(e: Expr): Option<string> {
    match e
    case Name(id) => Some(id)
    case Attribute(value, attr) =>
      (match DottedName(value)
       case None => None
       case Some(left) => Some(left + "." + attr))
    case OtherExpr => None
  }

  function Chain(parts: seq<string>): Expr
    requires parts != []
  {
    if |parts| == 1 then Name(parts[0]) else Attribute(Chain(parts[..|parts| - 1]), parts[|parts| - 1])
  }

  function NodeOf(name: string): Expr { Chain(Split(name, '.')) }

  method DottedNameToNode(name: string) returns (node: Expr)
    ensures node == NodeOf(name)
  {
    hide Split;
    var parts := Split(name, '.');
    node := Name(parts[0]);
    for i := 1 to |parts|
      invariant node == Chain(parts[..i])
    {
      assert parts[..i + 1][..i] == parts[..i];
      node := Attribute(node, parts[i]);
    }
    assert parts[..|parts|] == parts;
  }

  lemma {:induction false} JoinLast(parts: seq<string>, last: string)
    requires parts != []
    ensures Join(parts + [last], '.') == Join(parts, '.') + "." + last
  {
    if |parts| == 1 {
      assert (parts + [last])[1..] == [last];
    } else {
      assert (parts + [last])[1..] == parts[1..] + [last];
      JoinLast(parts[1..], last);
    }
  }

  lemma {:induction false} ChainName(parts: seq<string>)
    requires parts != []
    ensures DottedName(Chain(parts)) == Some(Join(parts, '.'))
  {
    if |parts| > 1 {
      ChainName(parts[..|parts| - 1]);
      JoinLast(parts[..|parts| - 1], parts[|parts| - 1]);
      assert parts == parts[..|parts| - 1] + [parts[|parts| - 1]];
    }
  }

  /** A name survives being turned into a node and back. */
  lemma {:induction false} NameRoundTrip(name: string)
    ensures DottedName(NodeOf(name)) == Some(name)
  {
    ChainName(Split(name, '.'));
    JoinSplit(name, '.');
  }

  function Components(e: Expr): Option<seq<string>> {
    match e
    case Name(id) => Some([id])
    case Attribute(value, attr) => if Components(value).None? then None else Some(Components(value).value + [attr])
    case OtherExpr => None
  }

  lemma {:induction false} ComponentsChain(e: Expr)
    requires Components(e).Some?
    ensures var parts := Components(e).value;
            parts != [] && Chain(parts) == e && DottedName(e) == Some(Join(parts, '.'))
  {
    if e.Attribute? {
      ComponentsChain(e.value);
      var parts := Components(e.value).value;
      assert (parts + [e.attr])[..|parts|] == parts;
      JoinLast(parts, e.attr);
    }
  }

  /** A chain of names has these components. */
  lemma {:induction false} ChainComponents(parts: seq<string>)
    requires parts != []
    ensures Components(Chain(parts)) == Some(parts)
  {
    var last := |parts| - 1;
    if last > 0 {
      ChainComponents(parts[..last]);
      assert parts[..last] + [parts[last]] == parts;
    } else {
      assert parts == [parts[0]];
    }
  }

  /** What has no components has no name. */
  lemma {:induction false} NoName(e: Expr)
    requires Components(e).None?
    ensures DottedName(e).None?
  {
    if e.Attribute? {
      NoName(e.value);
    }
  }

  /** A node made of names without dots survives being turned into a name and back. */
  lemma {:induction false} NodeRoundTrip(e: Expr)
    requires Components(e).Some? && forall p | p in Components(e).value :: '.' !in p
    ensures DottedName(e).Some? && NodeOf(DottedName(e).value) == e
  {
    ComponentsChain(e);
    SplitJoin(Components(e).value, '.');
  }

  // ---------------------------------------------------------------- rewriting

  /** A name to be replaced, and by what. */
  function Replacement(mapping: map<string, string>, name: string): Option<string> {
    if name != "" && !(ABS <= name) && name in mapping then Some(mapping[name]) else None
  }

  function RewriteAlias(mapping: map<string, string>, e: Expr): Expr {
    match DottedName(e)
    case None => e
    case Some(d) => (match Replacement(mapping, d) case None => e case Some(r) => NodeOf(r))
  }

  method LeaveImport(mapping: map<string, string>, names: seq<Expr>) returns (updated: seq<Expr>)
    ensures |updated| == |names| && forall k | 0 <= k < |names| :: updated[k] == RewriteAlias(mapping, names[k])
  {
    hide NodeOf;
    updated := [];
    for i := 0 to |names|
      invariant |updated| == i && forall k | 0 <= k < i :: updated[k] == RewriteAlias(mapping, names[k])
    {
      var alias := names[i];
      var dotted := DottedName(alias);
      if dotted.Some? {
        var replacement := Replacement(mapping, dotted.value);
        if replacement.Some? {
          alias := DottedNameToNode(replacement.value);
        }
      }
      updated := updated + [alias];
    }
  }

  /** A from-import: the number of leading dots, and the module named, if any. */
  datatype FromImport = FromImport(level: nat, module_: Option<string>)

  /** The module that a relative import names. */
  function ResolveRelative(moduleName: string, named: Option<string>, level: nat): Option<string> {
    if level == 0 then named
    else
      var current := Split(moduleName, '.');
      if |current| <= level then None
      else Some(Join(current[..|current| - level] + if named.Some? && named.value != "" then Split(named.value, '.')
          else [], '.'))
  }

  /** What a relative import is converted to. */
  function Conversion(mapping: map<string, string>, moduleName: string, i: FromImport): Option<string> {
    if i.level == 0 then None
    else match ResolveRelative(moduleName, i.module_, i.level)
      case None => None
      case Some(absolute) =>
        if absolute == "" then None
        else if SRC <= absolute then Some(absolute)
        else if absolute in mapping then Some(mapping[absolute]) else None
  }

  function RewriteFrom(mapping: map<string, string>, moduleName: string, convert: bool, i: FromImport): FromImport {
    var c := Conversion(mapping, moduleName, i);
    if convert && c.Some? then FromImport(0, c)
    else if i.module_.Some? && Replacement(mapping, i.module_.value).Some? then
        i.(module_ := Replacement(mapping, i.module_.value))
    else i
  }

  lemma {:induction false} ReplacementSettles(mapping: map<string, string>, name: string)
    requires GraphLike(mapping) && Replacement(mapping, name).Some?
    ensures var r := Replacement(mapping, name).value;
            (ABS <= r && Replacement(mapping, r).None?) || (r == name == SRC)
  {
  }

  /** A name of a plain import becomes the module that the graph gives for it, exactly if it is a known name outside the
      source package; every other one stays. */
  lemma {:induction false} AliasRewritten(mapping: map<string, string>, name: string)
    requires name != ""
    ensures DottedName(RewriteAlias(mapping, NodeOf(name)))
            == Some(if name in mapping && !("src." <= name) then mapping[name] else name)
    ensures !(name in mapping && !("src." <= name)) ==> RewriteAlias(mapping, NodeOf(name)) == NodeOf(name)
  {
    NameRoundTrip(name);
    if name in mapping {
      NameRoundTrip(mapping[name]);
    }
    hide NodeOf, DottedName;
  }

  /** What is no name stays. */
  lemma {:induction false} NoNameStays(mapping: map<string, string>, e: Expr)
    requires DottedName(e).None?
    ensures RewriteAlias(mapping, e) == e
  {
    hide NodeOf;
  }

  /** A from-import names the module that the graph gives for its name, if that is a known one outside the source
      package, and keeps its dots.  With conversion, a relative import of a module that lies in the source package
      or is known becomes an absolute one. */
  lemma {:induction false} FromRewritten(mapping: map<string, string>, moduleName: string, convert: bool, level: nat,
                                         name: string)
    requires name != ""
    ensures var r, from := RewriteFrom(mapping, moduleName, convert, FromImport(level, Some(name))),
                           Split(moduleName, '.');
            if convert && 0 < level < |from|
               && (SRC <= Base(moduleName, level) || Base(moduleName, level) + "." + name in mapping)
            then
              var full := Base(moduleName, level) + "." + name;
              r == FromImport(0, Some(if SRC <= full then full else mapping[full]))
            else
              r == FromImport(level, Some(if name in mapping && !("src." <= name) then mapping[name] else name))
  {
    if level == 0 {
      NoConversion(mapping, moduleName, Some(name));
    } else {
      ConversionBelow(mapping, moduleName, level, name);
      if level < |Split(moduleName, '.')| {
        BelowForm(moduleName, level, name);
        PrefixBelow(Base(moduleName, level), name);
      }
    }
    hide Split, Base, ResolveRelative;
  }

  /** An import of the package itself, by dots alone. */
  lemma {:induction false} PackageRewritten(mapping: map<string, string>, moduleName: string, level: nat)
    ensures var r := RewriteFrom(mapping, moduleName, true, FromImport(level, None));
            if 0 < level < |Split(moduleName, '.')| && Base(moduleName, level) != ""
               && (SRC <= Base(moduleName, level) || Base(moduleName, level) in mapping)
            then
              var full := Base(moduleName, level);
              r == FromImport(0, Some(if SRC <= full then full else mapping[full]))
            else r == FromImport(level, None)
  {
    if 0 < level < |Split(moduleName, '.')| {
      var current := Split(moduleName, '.');
      assert current[..|current| - level] + [] == current[..|current| - level];
    }
    hide Split, Join;
  }

  /** Rewriting the names of an import a second time changes nothing. */
  lemma {:induction false} AliasIdempotent(mapping: map<string, string>, e: Expr)
    requires GraphLike(mapping)
    ensures RewriteAlias(mapping, RewriteAlias(mapping, e)) == RewriteAlias(mapping, e)
  {
    hide NodeOf, Replacement, GraphLike;
    if DottedName(e).Some? && Replacement(mapping, DottedName(e).value).Some? {
      var r := Replacement(mapping, DottedName(e).value).value;
      NameRoundTrip(r);
      ReplacementSettles(mapping, DottedName(e).value);
    }
  }

  /** Without the conversion of relative imports, rewriting twice is rewriting once. */
  lemma {:induction false} FromIdempotent(mapping: map<string, string>, moduleName: string, i: FromImport)
    requires GraphLike(mapping)
    ensures var r := RewriteFrom(mapping, moduleName, false, i); RewriteFrom(mapping, moduleName, false, r) == r
  {
    hide Conversion, Replacement, GraphLike;
    if i.module_.Some? && Replacement(mapping, i.module_.value).Some? {
      ReplacementSettles(mapping, i.module_.value);
    }
  }

  /** The package that a relative import starts from. */
  function Base(moduleName: string, level: nat): string
    requires level < |Split(moduleName, '.')|
  {
    var current := Split(moduleName, '.');
    Join(current[..|current| - level], '.')
  }

  /** The name behind the dots is sent into the source package, and below the package that the import starts from, that
      name is one of a module. */
  predicate Displaced(mapping: map<string, string>, moduleName: string, i: FromImport) {
    && i.module_.Some? && 0 < i.level < |Split(moduleName, '.')|
    && var name := i.module_.value;
       && name != "" && !(ABS <= name) && name in mapping && mapping[name] == ABS + name
       && Base(moduleName, i.level) + "." + ABS + name in mapping
  }

  /** With conversion, a converted import must not name a module that the graph sends elsewhere, and an import that is
      not converted must not be displaced. */
  predicate Settled(mapping: map<string, string>, moduleName: string, i: FromImport) {
    var c := Conversion(mapping, moduleName, i);
    if c.Some? then ABS <= c.value || c.value !in mapping || mapping[c.value] == c.value
    else !Displaced(mapping, moduleName, i)
  }

  lemma {:induction false} JoinBoth(base: seq<string>, name: string)
    requires base != []
    ensures Join(base + Split(name, '.'), '.') == Join(base, '.') + "." + name
  {
    var parts := Split(name, '.');
    if |base| == 1 {
      assert (base + parts)[1..] == parts;
      JoinSplit(name, '.');
    } else {
      assert (base + parts)[1..] == base[1..] + parts;
      JoinBoth(base[1..], name);
    }
  }

  lemma {:induction false} PrefixBelow(base: string, name: string)
    ensures SRC <= base + "." + name <==> SRC <= base
  {
    var s := base + "." + name;
    if SRC <= s {
      assert s[0] == 's' && s[1] == 'r' && s[2] == 'c';
      assert |base| >= 3;
    }
  }

  /** What an import with a name behind its dots is converted to. */
  lemma {:induction false} ConversionBelow(mapping: map<string, string>, moduleName: string, level: nat, name: string)
    requires 0 < level && name != ""
    ensures var c := Conversion(mapping, moduleName, FromImport(level, Some(name)));
            if |Split(moduleName, '.')| <= level then c.None?
            else
              var base := Base(moduleName, level);
              c.None? <==> !(SRC <= base) && base + "." + name !in mapping
  {
    if level < |Split(moduleName, '.')| {
      BelowForm(moduleName, level, name);
      PrefixBelow(Base(moduleName, level), name);
    }
    hide Split, Join, Base;
  }

  lemma {:induction false} NoConversion(mapping: map<string, string>, moduleName: string, module_: Option<string>)
    ensures Conversion(mapping, moduleName, FromImport(0, module_)).None?
  {
  }

  /** An import that is not converted, but rewritten behind its dots, is converted by the next pass exactly if it is
      displaced. */
  lemma {:induction false} DisplacedConverts(mapping: map<string, string>, moduleName: string, i: FromImport)
    requires GraphLike(mapping) && Conversion(mapping, moduleName, i).None?
    requires i.module_.Some? && Replacement(mapping, i.module_.value).Some?
    ensures Conversion(mapping, moduleName, i.(module_ := Replacement(mapping, i.module_.value))).Some?
            <==> Displaced(mapping, moduleName, i)
  {
    var name := i.module_.value;
    var r := mapping[name];
    assert i == FromImport(i.level, Some(name));
    hide Conversion, Base, Split;
    if i.level == 0 {
      NoConversion(mapping, moduleName, Some(r));
    } else {
      ConversionBelow(mapping, moduleName, i.level, name);
      ConversionBelow(mapping, moduleName, i.level, r);
      if i.level < |Split(moduleName, '.')| && r != name {
        assert Base(moduleName, i.level) + "." + r == Base(moduleName, i.level) + "." + ABS + name;
      }
    }
  }

  /** With the conversion of relative imports, rewriting twice is rewriting once exactly for settled imports. */
  lemma {:induction false} ConvertedIdempotent(mapping: map<string, string>, moduleName: string, i: FromImport)
    requires GraphLike(mapping)
    ensures var r := RewriteFrom(mapping, moduleName, true, i);
            RewriteFrom(mapping, moduleName, true, r) == r <==> Settled(mapping, moduleName, i)
  {
    var c := Conversion(mapping, moduleName, i);
    if c.Some? {
      NoConversion(mapping, moduleName, c);
      NothingConverted(mapping, c.value);
    } else if i.module_.Some? && Replacement(mapping, i.module_.value).Some? {
      ReplacementSettles(mapping, i.module_.value);
      DisplacedConverts(mapping, moduleName, i);
    }
    hide Conversion, GraphLike, Base, Split;
  }

  lemma {:induction false} NothingConverted(mapping: map<string, string>, name: string)
    requires GraphLike(mapping)
    ensures var r := Replacement(mapping, name);
            r.Some? && name != "" ==> name in mapping && !(ABS <= name) && r.value == mapping[name]
  {
  }

  /** A module outside the source package imports a neighbour whose name the graph knows: the name is sent into the
      source package behind the dots, and, when the graph holds that name below the package of the module, converted by
      a second pass. */
  lemma {:induction false} DisplacedUnsettled()
    ensures var mapping, i, twice := map["a" := "src.a", "p.src.a" := "src.p.src.a"], FromImport(1, Some("a")),
            FromImport(1, Some("src.a"));
            && GraphLike(mapping) && Displaced(mapping, "p.m", i)
            && RewriteFrom(mapping, "p.m", true, i) == twice
            && RewriteFrom(mapping, "p.m", true, twice) == FromImport(0, Some("src.p.src.a"))
  {
    var mapping := map["a" := "src.a", "p.src.a" := "src.p.src.a"];
    BaseOfModule();
    NamesApart();
    hide Split, Base, ResolveRelative;
    BelowForm("p.m", 1, "a");
    BelowForm("p.m", 1, "src.a");
  }

  lemma {:induction false} BaseOfModule()
    ensures |Split("p.m", '.')| == 2 && Base("p.m", 1) == "p"
  {
    SplitWord("m", '.');
    SplitFirst("p", "m", '.');
    assert "p.m" == "p" + ['.'] + "m";
    var parts := Split("p.m", '.');
    hide Split;
    assert parts[..1] == ["p"];
  }

  lemma {:induction false} NamesApart()
    ensures "p" + "." + "a" == "p.a" && "p" + "." + "src.a" == "p.src.a" && "p" + "." + ABS + "a" == "p.src.a"
    ensures ABS + "a" == "src.a"
    ensures "p.a" != "a" && "p.a" != "p.src.a" && !(SRC <= "p.a") && !(SRC <= "p.src.a") && !(ABS <= "a")
    ensures ABS <= "src.a"
    ensures ABS + "p.src.a" == "src.p.src.a"
  {
    assert "p.a"[0] == 'p' && "p.src.a"[0] == 'p';
  }

  /** The module that an import with a name behind its dots names. */
  lemma {:induction false} BelowForm(moduleName: string, level: nat, name: string)
    requires 0 < level < |Split(moduleName, '.')| && name != ""
    ensures ResolveRelative(moduleName, Some(name), level) == Some(Base(moduleName, level) + "." + name)
  {
    var current := Split(moduleName, '.');
    JoinBoth(current[..|current| - level], name);
    hide Split, Join;
  }

  /** In a tree with a module src/src.py, an import of the package itself is converted, and then sent to that module. */
  lemma {:induction false} NestedSourceUnsettled()
    ensures var mapping, i := map[SRC := "src.src", "a" := "src.a"], FromImport(1, None);
            GraphLike(mapping) && RewriteFrom(mapping, "src.a", true, i) == FromImport(0, Some(SRC))
            && RewriteFrom(mapping, "src.a", true, FromImport(0, Some(SRC))) == FromImport(0, Some("src.src"))
  {
    var mapping, i := map[SRC := "src.src", "a" := "src.a"], FromImport(1, None);
    SplitWord("a", '.');
    SplitFirst(SRC, "a", '.');
    assert "src.a" == SRC + ['.'] + "a";
    assert Split("src.a", '.')[..1] + [] == [SRC];
    assert ResolveRelative("src.a", None, 1) == Some(SRC);
  }
}
