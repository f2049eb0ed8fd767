/** Which of the characters that matter to query parsing occur in the
    literal parts of the DBS URLs. Kept apart from the modules that use it so
    that these facts about constant strings are decided in a small context. */
module UrlLiterals {

  /** '%', '+', '=' and 'k' are absent from the fixed text around the
      instance, and all but '=' from the run and validFileOnly arguments. */
  lemma LiteralsPlain()
    ensures forall c :: c == '%' || c == '+' || c == '=' || c == 'k' ==>
      c !in "https://cmsweb.cern.ch/dbs/" && c !in "/DBSReader"
    ensures forall c :: c == '%' || c == '+' || c == 'k' ==>
      c !in "&run_num=" && c !in "&validFileOnly=1"
  {
  }
}
