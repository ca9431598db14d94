/** The parsed configuration as the program sees it through configparser:
    sections by name, options by their lower-cased name. Reading and
    writing the file itself is not part of this model. */
module Ini {
  import opened Base
  import opened Text

  type Section = map<string, string>
  type Config = map<string, Section>

  /** configparser's optionxform: option names are stored lower-cased. */
  function OptionKey(option: string): string { Lower(option) }

  /** config[section][option]: the value, or a KeyError naming what is
      missing (the section first). */
  function Get(cfg: Config, section: string, option: string): (r: Result<string>)
    ensures r.Ok? <==> section in cfg && OptionKey(option) in cfg[section]
    ensures r.Ok? ==> r.value == cfg[section][OptionKey(option)]
    ensures r.Raised? ==> r.exc == KeyError(if section in cfg then option else section)
  {
    if section !in cfg then Raised(KeyError(section))
    else if OptionKey(option) !in cfg[section] then Raised(KeyError(option))
    else Ok(cfg[section][OptionKey(option)])
  }

  /** Two option names that differ only in letter case find the same
      value, or are missing together. */
  lemma OptionNamesIgnoreCase(cfg: Config, section: string, a: string, b: string)
    requires Lower(a) == Lower(b)
    ensures Get(cfg, section, a).Ok? <==> Get(cfg, section, b).Ok?
    ensures Get(cfg, section, a).Ok? ==> Get(cfg, section, a).value == Get(cfg, section, b).value
  {
  }

  /** An option name and its upper-case spelling, as the program writes
      them side by side ("file_name" and "FORMAT"), name the same option. */
  lemma UpperSpellingSameOption(cfg: Config, section: string, option: string)
    ensures Get(cfg, section, Upper(option)).Ok? <==> Get(cfg, section, option).Ok?
    ensures Get(cfg, section, Upper(option)).Ok? ==>
              Get(cfg, section, Upper(option)).value == Get(cfg, section, option).value
  {
    assert Lower(Upper(option)) == Lower(option);
    OptionNamesIgnoreCase(cfg, section, Upper(option), option);
  }

  /** config[section][option] for each option in turn, as a function that
      reads several options one after the other does: all the values, or
      the KeyError of the first lookup that fails. */
  function Lookups(cfg: Config, section: string, options: seq<string>): (r: Result<seq<string>>)
    ensures r.Ok? <==> forall i | 0 <= i < |options| :: Get(cfg, section, options[i]).Ok?
    ensures r.Ok? ==> |r.value| == |options|
                      && forall i | 0 <= i < |options| :: Get(cfg, section, options[i]) == Ok(r.value[i])
    ensures r.Raised? ==> exists i | 0 <= i < |options| :: FirstFailure(cfg, section, options, i)
                                                           && Get(cfg, section, options[i]) == Raised(r.exc)
    decreases |options|
  {
    if options == [] then Ok([])
    else
      match Get(cfg, section, options[0])
      case Raised(e) =>
        assert FirstFailure(cfg, section, options, 0);
        Raised(e)
      case Ok(v) =>
        var rest := Lookups(cfg, section, options[1..]);
        assert forall i | 0 <= i < |options| - 1 :: options[1..][i] == options[i + 1];
        match rest
        case Raised(e) =>
          var i :| 0 <= i < |options| - 1 && FirstFailure(cfg, section, options[1..], i)
                   && Get(cfg, section, options[1..][i]) == Raised(e);
          assert FirstFailure(cfg, section, options, i + 1);
          Raised(e)
        case Ok(vs) => Ok([v] + vs)
  }

  /** The i-th lookup is the first of options to fail. */
  predicate FirstFailure(cfg: Config, section: string, options: seq<string>, i: int) {
    0 <= i < |options| && Get(cfg, section, options[i]).Raised?
    && forall j | 0 <= j < i :: Get(cfg, section, options[j]).Ok?
  }

  /** The lookups raise the error of whichever lookup fails first. */
  lemma LookupsFailAt(cfg: Config, section: string, options: seq<string>, i: int)
    requires FirstFailure(cfg, section, options, i)
    ensures Lookups(cfg, section, options) == Raised(Get(cfg, section, options[i]).exc)
  {
    var r := Lookups(cfg, section, options);
    var k :| 0 <= k < |options| && FirstFailure(cfg, section, options, k) && Get(cfg, section, options[k]) == Raised(r.exc);
    assert !(k < i) && !(i < k);
  }

  /** Two configurations that read the same for every option give the same
      lookups. */
  lemma {:induction false} LookupsSame(cfg: Config, cfg': Config, section: string, options: seq<string>)
    requires forall o | o in options :: Get(cfg', section, o) == Get(cfg, section, o)
    ensures Lookups(cfg', section, options) == Lookups(cfg, section, options)
    decreases |options|
  {
    if options != [] {
      assert forall o | o in options[1..] :: o in options;
      LookupsSame(cfg, cfg', section, options[1..]);
    }
  }

  /** Two configurations that read the same for every option but the first,
      and whose first option is missing alike or present in both, give
      lookups that fail alike or agree on every value but the first. */
  lemma LookupsAgreeAfterFirst(cfg: Config, cfg': Config, section: string, options: seq<string>)
    requires options != []
    requires Get(cfg', section, options[0]).Ok? == Get(cfg, section, options[0]).Ok?
    requires Get(cfg, section, options[0]).Raised? ==> Get(cfg', section, options[0]) == Get(cfg, section, options[0])
    requires forall o | o in options[1..] :: Get(cfg', section, o) == Get(cfg, section, o)
    ensures Lookups(cfg', section, options).Ok? == Lookups(cfg, section, options).Ok?
    ensures Lookups(cfg, section, options).Raised? ==> Lookups(cfg', section, options) == Lookups(cfg, section, options)
    ensures Lookups(cfg, section, options).Ok? ==>
              Lookups(cfg', section, options).value[1..] == Lookups(cfg, section, options).value[1..]
  {
    LookupsSame(cfg, cfg', section, options[1..]);
  }

  /** Setting one option changes what that option reads and nothing else. */
  lemma GetAfterSet(cfg: Config, section: string, key: string, value: string, option: string)
    requires section in cfg
    ensures Get(cfg[section := cfg[section][key := value]], section, option)
            == if OptionKey(option) == key then Ok(value) else Get(cfg, section, option)
  {
  }
}
