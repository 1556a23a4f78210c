/**
 * Cache-key derivation shared by src/runner.ts and src/post-setup.ts: the platform table
 * and the dash-joined keys of the package-manager cache and of the `node_modules` cache,
 * with their restore prefixes.
 */
module Keys {
  import opened Wrappers
  import opened Strings
  import opened Detection

  /** The `os` table: exactly three platforms are mapped, to three different tags. */
  function OsTag(platform: string): (r: Option<string>)
    ensures r == Some("macos") <==> platform == "darwin"
    ensures r == Some("linux") <==> platform == "linux"
    ensures r == Some("windows") <==> platform == "win32"
    ensures r.None? <==> platform != "darwin" && platform != "linux" && platform != "win32"
  {
    if platform == "darwin" then Some("macos")
    else if platform == "linux" then Some("linux")
    else if platform == "win32" then Some("windows")
    else None
  }

  /**
   * What `${os[process.platform]}` puts into a key: the tag of a mapped platform, or the
   * text "undefined" for a platform the table does not map. Never contains a dash.
   */
  function OsSegment(platform: string): (r: string)
    ensures |r| > 0 && NoDash(r)
    ensures r == "undefined" <==> OsTag(platform).None?
    ensures OsTag(platform).Some? ==> r == OsTag(platform).value
  {
    match OsTag(platform)
    case Some(tag) => tag
    case None => "undefined"
  }

  /** Two platforms land in the same key segment only when both are unmapped or both are the same platform. */
  lemma OsSegmentInjective(p: string, q: string)
    ensures OsSegment(p) == OsSegment(q) <==> p == q || (OsTag(p).None? && OsTag(q).None?)
  {
  }

  lemma NameHasNoDash(pm: PackageManager)
    ensures |Name(pm)| > 0 && NoDash(Name(pm))
  {
  }

  /** The glob `**\/<name>` that both steps hash: every file or directory called `name`, at any depth. */
  function RecursiveGlob(name: string): string {
    "**/" + name
  }

  /** `segment` and `rest` joined by a dash, as in the template literals' `${segment}-${rest}`. */
  function Join(segment: string, rest: string): string {
    segment + "-" + rest
  }

  /** Restore prefix of the package-manager cache: `${pm}-${os}-${major}-`. */
  function FallbackKey(pm: PackageManager, platform: string, major: nat): string {
    Join(Name(pm), Join(OsSegment(platform), Join(Decimal(major), "")))
  }

  /**
   * Primary key of the package-manager cache, `${pm}-${os}-${major}-${hash}`: the restore
   * prefix followed by the lockfile hash.
   */
  function PrimaryKey(pm: PackageManager, platform: string, major: nat, hash: string): (key: string)
    ensures FallbackKey(pm, platform, major) <= key
    ensures key[|FallbackKey(pm, platform, major)|..] == hash
  {
    Join(Name(pm), Join(OsSegment(platform), Join(Decimal(major), hash)))
  }

  /** Restore prefix of the `node_modules` cache: `${pm}-${os}-node_modules-${major}-`. */
  function NodeModulesFallbackKey(pm: PackageManager, platform: string, major: nat): string {
    Join(Name(pm), Join(OsSegment(platform), Join("node_modules", Join(Decimal(major), ""))))
  }

  /**
   * Primary key of the `node_modules` cache, `${pm}-${os}-node_modules-${major}-${nmHash}`:
   * its restore prefix followed by the directory hash.
   */
  function NodeModulesKey(pm: PackageManager, platform: string, major: nat, nmHash: string): (key: string)
    ensures NodeModulesFallbackKey(pm, platform, major) <= key
    ensures key[|NodeModulesFallbackKey(pm, platform, major)|..] == nmHash
  {
    Join(Name(pm), Join(OsSegment(platform), Join("node_modules", Join(Decimal(major), nmHash))))
  }

  /**
   * Both restore prefixes start with the manager's segment and a dash and end with a dash,
   * so a prefix match never stops inside a segment; the two prefixes differ.
   */
  lemma FallbackKeyShape(pm: PackageManager, platform: string, major: nat)
    ensures Join(Name(pm), "") <= FallbackKey(pm, platform, major)
    ensures Join(Name(pm), "") <= NodeModulesFallbackKey(pm, platform, major)
    ensures FallbackKey(pm, platform, major)[|FallbackKey(pm, platform, major)| - 1] == '-'
    ensures NodeModulesFallbackKey(pm, platform, major)[|NodeModulesFallbackKey(pm, platform, major)| - 1] == '-'
    ensures FallbackKey(pm, platform, major) != NodeModulesFallbackKey(pm, platform, major)
  {
    var k, n := FallbackKey(pm, platform, major), NodeModulesFallbackKey(pm, platform, major);
    var rest, nmRest := Join(OsSegment(platform), Join(Decimal(major), "")),
                        Join(OsSegment(platform), Join("node_modules", Join(Decimal(major), "")));
    assert k == Name(pm) + "-" + rest && n == Name(pm) + "-" + nmRest;
    assert k[..|Name(pm)| + 1] == Name(pm) + "-";
    assert n[..|Name(pm)| + 1] == Name(pm) + "-";
    var d := Join(Decimal(major), "");
    assert d[|d| - 1] == '-';
    var o := Join(OsSegment(platform), d);
    assert o[|o| - 1] == '-';
    var t := Join("node_modules", d);
    assert t[|t| - 1] == '-';
    var u := Join(OsSegment(platform), t);
    assert u[|u| - 1] == '-';
    if k == n {
      CachesAreDisjoint(pm, platform, major, "", pm, platform, major, "");
    }
  }

  /** An example key: pnpm on linux under Node 18 with lockfile hash `abc123`. */
  lemma PrimaryKeyExample()
    ensures PrimaryKey(Pnpm, "linux", 18, "abc123") == "pnpm-linux-18-abc123"
  {
  }

  /** The key of the end-to-end run in the restore step: npm on linux under Node 18, hash `deadbeef`. */
  lemma NpmKeyExample()
    ensures PrimaryKey(Npm, "linux", 18, "deadbeef") == "npm-linux-18-deadbeef"
  {
  }

  /** Index of the first dash in `s`, or `|s|` when there is none. */
  function DashIndex(s: string): (k: nat)
    ensures k <= |s|
    ensures forall i :: 0 <= i < k ==> s[i] != '-'
    ensures k < |s| ==> s[k] == '-'
  {
    if s == [] then 0 else if s[0] == '-' then 0 else 1 + DashIndex(s[1..])
  }

  /** One dash-free segment, a dash, and a tail are recovered from any extension of the whole. */
  lemma SplitAtDash(a: string, x: string, b: string, y: string)
    requires NoDash(a) && NoDash(b)
    requires Join(a, x) <= Join(b, y)
    ensures a == b && x <= y
  {
    var l, r := Join(a, x), Join(b, y);
    assert l == r[..|l|];
    assert DashIndex(l) == |a| by {
      assert l[|a|] == '-';
      assert forall i :: 0 <= i < |a| ==> l[i] == a[i];
    }
    assert DashIndex(r) == |b| by {
      assert r[|b|] == '-';
      assert forall i :: 0 <= i < |b| ==> r[i] == b[i];
    }
    assert DashIndex(r) == |a| by {
      assert r[|a|] == l[|a|] == '-';
      assert forall i :: 0 <= i < |a| ==> r[i] == l[i];
    }
    assert a == l[..|a|] == r[..|b|] == b;
    assert x == l[|a| + 1..];
    assert y == r[|a| + 1..];
  }

  /**
   * The restore prefix of the package-manager cache matches the primary key of an entry
   * exactly when that entry was made by the same manager, on the same OS tag, under the
   * same Node major: a prefix fallback never picks up another manager's or another Node
   * version's cache.
   */
  lemma FallbackMatchesSameEnvironment(pm: PackageManager, platform: string, major: nat,
                                       pm': PackageManager, platform': string, major': nat, hash': string)
    ensures FallbackKey(pm, platform, major) <= PrimaryKey(pm', platform', major', hash')
        <==> pm == pm' && OsSegment(platform) == OsSegment(platform') && major == major'
  {
    if FallbackKey(pm, platform, major) <= PrimaryKey(pm', platform', major', hash') {
      NameHasNoDash(pm);
      NameHasNoDash(pm');
      SplitAtDash(Name(pm), Join(OsSegment(platform), Join(Decimal(major), "")),
                  Name(pm'), Join(OsSegment(platform'), Join(Decimal(major'), hash')));
      SplitAtDash(OsSegment(platform), Join(Decimal(major), ""), OsSegment(platform'), Join(Decimal(major'), hash'));
      SplitAtDash(Decimal(major), "", Decimal(major'), hash');
      NameInjective(pm, pm');
      DecimalInjective(major, major');
    }
  }

  /** The same for the `node_modules` cache. */
  lemma NodeModulesFallbackMatchesSameEnvironment(pm: PackageManager, platform: string, major: nat,
                                                  pm': PackageManager, platform': string, major': nat, nmHash': string)
    ensures NodeModulesFallbackKey(pm, platform, major) <= NodeModulesKey(pm', platform', major', nmHash')
        <==> pm == pm' && OsSegment(platform) == OsSegment(platform') && major == major'
  {
    if NodeModulesFallbackKey(pm, platform, major) <= NodeModulesKey(pm', platform', major', nmHash') {
      var tail, tail' := Join(Decimal(major), ""), Join(Decimal(major'), nmHash');
      var l := Join(Name(pm), Join(OsSegment(platform), Join("node_modules", tail)));
      var r := Join(Name(pm'), Join(OsSegment(platform'), Join("node_modules", tail')));
      assert l == NodeModulesFallbackKey(pm, platform, major) && r == NodeModulesKey(pm', platform', major', nmHash');
      NameHasNoDash(pm);
      NameHasNoDash(pm');
      assert l <= r;
      SplitAtDash(Name(pm), Join(OsSegment(platform), Join("node_modules", tail)),
                  Name(pm'), Join(OsSegment(platform'), Join("node_modules", tail')));
      SplitAtDash(OsSegment(platform), Join("node_modules", tail), OsSegment(platform'), Join("node_modules", tail'));
      SplitAtDash("node_modules", tail, "node_modules", tail');
      SplitAtDash(Decimal(major), "", Decimal(major'), nmHash');
      NameInjective(pm, pm');
      DecimalInjective(major, major');
    }
  }

  /** A primary key determines the manager, the OS segment, the Node major and the hash it was built from. */
  lemma PrimaryKeyInjective(pm: PackageManager, platform: string, major: nat, hash: string,
                            pm': PackageManager, platform': string, major': nat, hash': string)
    requires PrimaryKey(pm, platform, major, hash) == PrimaryKey(pm', platform', major', hash')
    ensures pm == pm' && OsSegment(platform) == OsSegment(platform') && major == major' && hash == hash'
  {
    FallbackMatchesSameEnvironment(pm, platform, major, pm', platform', major', hash');
  }

  /**
   * The two caches never share an entry: no package-manager key is a `node_modules` key, and
   * neither restore prefix matches an entry of the other cache.
   */
  lemma CachesAreDisjoint(pm: PackageManager, platform: string, major: nat, hash: string,
                          pm': PackageManager, platform': string, major': nat, nmHash': string)
    ensures !(FallbackKey(pm, platform, major) <= NodeModulesKey(pm', platform', major', nmHash'))
    ensures !(NodeModulesFallbackKey(pm', platform', major') <= PrimaryKey(pm, platform, major, hash))
    ensures PrimaryKey(pm, platform, major, hash) != NodeModulesKey(pm', platform', major', nmHash')
  {
    NameHasNoDash(pm);
    NameHasNoDash(pm');
    var digits := Join(Decimal(major), "");
    var nm := Join("node_modules", Join(Decimal(major'), nmHash'));
    assert digits[0] != nm[0];
    if FallbackKey(pm, platform, major) <= NodeModulesKey(pm', platform', major', nmHash') {
      SplitAtDash(Name(pm), Join(OsSegment(platform), digits), Name(pm'), Join(OsSegment(platform'), nm));
      SplitAtDash(OsSegment(platform), digits, OsSegment(platform'), nm);
    }
    var key := Join(Decimal(major), hash);
    var nmPrefix := Join("node_modules", Join(Decimal(major'), ""));
    assert key[0] != nmPrefix[0];
    if NodeModulesFallbackKey(pm', platform', major') <= PrimaryKey(pm, platform, major, hash) {
      SplitAtDash(Name(pm'), Join(OsSegment(platform'), nmPrefix), Name(pm), Join(OsSegment(platform), key));
      SplitAtDash(OsSegment(platform'), nmPrefix, OsSegment(platform), key);
    }
  }
}
