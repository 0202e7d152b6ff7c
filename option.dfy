/** The immutable option descriptor of Option.java. */
module Options {

  /**
   * One recognised option. `name` is what parsed entries report, `alias` is matched
   * by its first letter (tar and short forms) or by prefix (long form), and
   * `requiresParam` only matters where `takesParam` is consulted first.
   * All four fields are final in the source, so a datatype value models it exactly.
   */
  datatype OptionSpec = OptionSpec(name: string, alias: string, takesParam: bool, requiresParam: bool)

  /** Every alias has a first letter; the first-letter lookup reads `alias.charAt(0)`. */
  predicate ValidOptions(options: seq<OptionSpec>) {
    forall o :: o in options ==> |o.alias| > 0
  }

  /** The constructor keeps each argument in the field of the same name, and nothing else. */
  lemma DescriptorStoresFields(name: string, alias: string, takesParam: bool, requiresParam: bool)
    ensures var o := OptionSpec(name, alias, takesParam, requiresParam);
      o.name == name && o.alias == alias && o.takesParam == takesParam && o.requiresParam == requiresParam
    ensures forall o: OptionSpec ::
              (o.name == name && o.alias == alias && o.takesParam == takesParam && o.requiresParam == requiresParam)
              ==> o == OptionSpec(name, alias, takesParam, requiresParam)
  {
  }
}
