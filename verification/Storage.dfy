/** The per-player storage quota, in the widths the code computes with. */
module Storage {
  import opened Base

  const MAX_FILE_SIZE: nat := 25 * 0x10_0000
  const INT64: nat := 0x8000_0000_0000_0000
  const UINT64: nat := 0x1_0000_0000_0000_0000

  /** One owner's files: committed sizes by name. */
  type Files = map<string, nat>

  datatype Config = Config(maxBytes: nat, maxFiles: int)

  datatype Outcome = Done | QuotaExceeded | UploadIncomplete | TooLarge | NotFound | UsageOverflow

  ghost function Total(files: Files): nat {
    if files == map[] then 0
    else
      var name :| name in files;
      files[name] + Total(files - {name})
  }

  /** The total does not depend on which file is counted first. */
  lemma {:induction false} TotalWithout(files: Files, name: string)
    requires name in files
    ensures Total(files) == files[name] + Total(files - {name})
    decreases |files|
  {
    var first :| first in files && Total(files) == files[first] + Total(files - {first});
    if first != name {
      var rest, both := files - {first}, files - {first} - {name};
      TotalWithout(rest, name);
      assert files - {name} - {first} == both;
      TotalWithout(files - {name}, first);
    }
  }

  lemma KeysGrow(files: Files, name: string, size: nat)
    requires name !in files
    ensures |files[name := size]| == |files| + 1
  {
    assert files[name := size].Keys == files.Keys + {name};
    assert |files[name := size]| == |files[name := size].Keys| && |files| == |files.Keys|;
  }

  lemma TotalAdd(files: Files, name: string, size: nat)
    requires name !in files
    ensures Total(files[name := size]) == Total(files) + size
    ensures |files[name := size]| == |files| + 1
  {
    var put := files[name := size];
    TotalWithout(put, name);
    assert put - {name} == files;
    KeysGrow(files, name, size);
  }

  lemma TotalReplace(files: Files, name: string, size: nat)
    requires name in files
    ensures Total(files[name := size]) == Total(files) - files[name] + size
    ensures |files[name := size]| == |files|
  {
    var put := files[name := size];
    TotalWithout(put, name);
    TotalWithout(files, name);
    assert put - {name} == files - {name};
    assert put.Keys == files.Keys;
    assert |put| == |put.Keys| && |files| == |files.Keys|;
  }

  ghost predicate WithinQuota(cfg: Config, files: Files) { Total(files) <= cfg.maxBytes && |files| <= cfg.maxFiles }

  /** Sizes are bounded by the per-file ceiling. */
  ghost predicate SizesOk(files: Files) { forall name :: name in files ==> files[name] <= MAX_FILE_SIZE }

  lemma NoWrap(x: int)
    requires 0 <= x < UINT64
    ensures (x + UINT64) % UINT64 == x
  {}

  class PlayerFiles {
    const cfg: Config
    var files: Files

    constructor (cfg: Config)
      ensures this.cfg == cfg && files == map[]
    {
      this.cfg := cfg;
      files := map[];
    }

    /** SUM(size)::BIGINT and COUNT(*): a sum beyond 64 signed bits is an error of the query. */
    method Usage() returns (ok: bool, total: nat, count: int)
      ensures ok <==> Total(files) < INT64
      ensures ok ==> total == Total(files) && count == |files|
    {
      total := 0;
      var rest := files;
      while rest != map[]
        invariant total + Total(rest) == Total(files)
        decreases |rest|
      {
        var name :| name in rest.Keys;
        TotalWithout(rest, name);
        assert (rest - {name}).Keys == rest.Keys - {name};
        total := total + rest[name];
        rest := rest - {name};
      }
      ok, count := total < INT64, |files|;
    }

    /**
     * Accepts exactly when the files after the write are within quota: the unsigned subtraction never wraps, and
     * the addition only could for a size of half the unsigned range or more.
     */
    method CheckQuota(name: string, size: nat) returns (r: Outcome)
      requires size < UINT64 && cfg.maxBytes < UINT64
      ensures r == Done || r == QuotaExceeded || r == UsageOverflow
      ensures r == UsageOverflow <==> Total(files) >= INT64
      ensures Total(files) < INT64 && size <= INT64 ==> (r == Done <==> WithinQuota(cfg, files[name := size]))
    {
      var ok, total, count := Usage();
      if !ok {
        return UsageOverflow;
      }
      if name in files {
        TotalReplace(files, name, size);
        TotalWithout(files, name);
        NoWrap(total - files[name]);
        total := (total - files[name] + UINT64) % UINT64;
      } else {
        TotalAdd(files, name, size);
        count := count + 1;
      }
      assert size <= INT64 ==> total + size < UINT64;
      if (total + size) % UINT64 > cfg.maxBytes || count > cfg.maxFiles {
        return QuotaExceeded;
      }
      return Done;
    }

    /** size is what the blob store reports for the object, or none when nothing was uploaded. */
    method CommitPlayerFile(name: string, size: Option<nat>) returns (r: Outcome)
      requires cfg.maxBytes < UINT64
      modifies this
      ensures files == Step(cfg, old(files), Commit(name, size))
      ensures r == Done ==> size.Some? && files == old(files)[name := size.value] && WithinQuota(cfg, files)
      ensures r != Done ==> files == old(files)
      ensures r == UploadIncomplete <==> size.None?
      ensures r == TooLarge <==> size.Some? && size.value > 26_214_400
      ensures r == Done <==> size.Some? && size.value <= MAX_FILE_SIZE && Total(old(files)) < INT64
                             && WithinQuota(cfg, old(files)[name := size.value])
    {
      if size.None? {
        return UploadIncomplete;
      }
      if size.value > MAX_FILE_SIZE {
        return TooLarge;
      }
      r := CheckQuota(name, size.value);
      if r != Done {
        return;
      }
      files := files[name := size.value];
    }

    method DeletePlayerFile(name: string) returns (r: Outcome)
      modifies this
      ensures files == Step(cfg, old(files), Delete(name))
      ensures r == if name in old(files) then Done else NotFound
      ensures name !in files && files.Keys == old(files.Keys) - {name}
      ensures forall other :: other in files ==> files[other] == old(files)[other]
    {
      if name !in files {
        return NotFound;
      }
      files := files - {name};
      return Done;
    }
  }

  // ---- serial runs ----

  datatype Op = Commit(name: string, size: Option<nat>) | Delete(name: string)

  ghost function Step(cfg: Config, files: Files, op: Op): Files {
    match op
    case Commit(name, size) =>
      if size.Some? && size.value <= MAX_FILE_SIZE && Total(files) < INT64
         && WithinQuota(cfg, files[name := size.value])
      then files[name := size.value] else files
    case Delete(name) => files - {name}
  }

  ghost function Run(cfg: Config, ops: seq<Op>): Files {
    if ops == [] then map[] else Step(cfg, Run(cfg, ops[..|ops| - 1]), ops[|ops| - 1])
  }

  lemma DeleteShrinks(cfg: Config, files: Files, name: string)
    requires WithinQuota(cfg, files)
    ensures WithinQuota(cfg, files - {name})
  {
    if name in files {
      TotalWithout(files, name);
      assert (files - {name}).Keys == files.Keys - {name};
      assert |(files - {name}).Keys| == |files - {name}| && |files.Keys| == |files|;
    } else {
      assert files - {name} == files;
    }
  }

  /** Every serial run of commits and deletes keeps a non-empty owner within quota, every file within its ceiling. */
  lemma {:induction false} EveryRunWithinQuota(cfg: Config, ops: seq<Op>)
    ensures Run(cfg, ops) != map[] ==> WithinQuota(cfg, Run(cfg, ops))
    ensures SizesOk(Run(cfg, ops))
  {
    if ops != [] {
      var files, op := Run(cfg, ops[..|ops| - 1]), ops[|ops| - 1];
      EveryRunWithinQuota(cfg, ops[..|ops| - 1]);
      if op.Delete? && files != map[] {
        DeleteShrinks(cfg, files, op.name);
      }
    }
  }

  lemma {:induction false} TotalBound(files: Files)
    requires SizesOk(files)
    ensures Total(files) <= |files| * MAX_FILE_SIZE
    decreases |files|
  {
    if files != map[] {
      var name :| name in files;
      TotalWithout(files, name);
      var rest := files - {name};
      assert rest.Keys == files.Keys - {name};
      assert |rest| == |rest.Keys| && |files| == |files.Keys|;
      TotalBound(rest);
    }
  }

  /** The usage sum stays in range over every run whose byte limit, or file limit times the file ceiling, does. */
  lemma UsageNeverOverflows(cfg: Config, ops: seq<Op>)
    requires cfg.maxBytes < INT64 || Max(cfg.maxFiles, 0) * MAX_FILE_SIZE < INT64
    ensures Total(Run(cfg, ops)) < INT64
  {
    EveryRunWithinQuota(cfg, ops);
    TotalBound(Run(cfg, ops));
    if Run(cfg, ops) != map[] {
      Scales(|Run(cfg, ops)|, Max(cfg.maxFiles, 0));
    }
  }

  lemma Scales(n: nat, m: int)
    requires n <= m
    ensures n * MAX_FILE_SIZE <= m * MAX_FILE_SIZE
  {}
}
