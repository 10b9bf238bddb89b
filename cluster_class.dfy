/**
 * The classification table of antismash/common/cluster_class.py: a single
 * Python dict display that maps the name of a gut-metabolism gene cluster
 * (or pathway) to a broad chemical class label.
 *
 * The display is kept here entry by entry, in source order and with its
 * duplicate, and the dictionary is built from it the way Python evaluates a
 * dict display: left to right, a repeated key overwriting the earlier value.
 */
module ClusterClass {
  import opened Wrappers

  type Entry = (string, string)

  // The 62 `key: value` entries of the display, in order. They are written as
  // four displays of at most 16 entries whose concatenation is the literal.
  const Part0: seq<(string, string)> := [
    ("Putrescine2spermidine", "Aliphatic_amine"),
    ("HGD_related", "Putative"),
    ("Arginine2putrescine", "Aliphatic_amine"),
    ("PFOR_II_pathway", "SCFA"),
    ("NADH_dehydrogenase_I", "E-MGC"),
    ("Respiratory_glycerol", "E-MGC"),
    ("Formate_dehydrogenase", "E-MGC"),
    ("Ech_complex", "E-MGC"),
    ("Nitrate_reductase", "E-MGC"),
    ("Molybdopterin_dependent_oxidoreductase", "E-MGC"),
    ("Rnf_complex", "E-MGC"),
    ("Pyruvate2acetate-formate", "SCFA"),
    ("Sulfate2sulfide", "E-MGC"),
    ("Hydroxy-L-proline2proline", "Other"),
    ("Phenylacetate2toluene", "Aromatic"),
    ("Indoleacetate2scatole", "Aromatic")
  ]

  const Part1: seq<(string, string)> := [
    ("Fumarate2succinate", "SCFA"),
    ("Acetyl-CoA_pathway", "SCFA"),
    ("hydroxybenzoate2phenol", "Aromatic"),
    ("pdu", "alcohol-SCFA"),
    ("EUT_pathway", "SCFA"),
    ("TMA", "Aliphatic_amine-SCFA"),
    ("p-cresol", "Aromatic"),
    ("Arginine2_Hcarbonate", "Other"),
    ("proline2aminovalerate", "npAA"),
    ("Leucine_reduction", "SCFA"),
    ("gallic_acid_met", "Aromatic"),
    ("bai_operon", "Other"),
    ("acetate2butyrate", "SCFA"),
    ("AAA_reductive_branch", "Aromatic"),
    ("porA", "SCFA"),
    ("Lysine_degradation", "SCFA")
  ]

  const Part2: seq<(string, string)> := [
    ("glutamate2butyric", "SCFA"),
    ("caffeate_respiration", "Aromatic"),
    ("carnitine_degradaion_caiTABCDE", "npAA"),
    ("aminobutyrate2Butyrate", "SCFA"),
    ("succinate2propionate", "SCFA"),
    ("acrylate2propionate", "SCFA"),
    ("Threonine2propionate", "SCFA"),
    ("Glycine_reductase", "SCFA"),
    ("Glycine_cleavage", "Other"),
    ("histidine2glutamate_hutHGIU_operon", "Other"),
    ("succinate2propionate", "SCFA"),
    ("Oxidative_glycerol", "Other"),
    ("Flavoenzyme_AA_peptides_catabolism", "Putative"),
    ("Flavoenzyme_sugar_catabolism", "Putative"),
    ("Flavoenzyme_lipids_catabolism", "Putative"),
    ("OD_lactate_related", "Putative")
  ]

  const Part3: seq<(string, string)> := [
    ("OD_eut_pdu_related", "Putative"),
    ("OD_AA_metabolism", "Putative"),
    ("OD_fatty_acids", "Putative"),
    ("OD_aldehydes_related", "Putative"),
    ("OD_unknown", "Putative"),
    ("TPP_fatty_acids", "Putative"),
    ("TPP_AA_metabolism", "Putative"),
    ("GR_AA_metabolism", "Putative"),
    ("GR_eut-pdu-related", "Putative"),
    ("GR_fatty_acids", "Putative"),
    ("OD_GR_eut_related", "Putative"),
    ("OD_GR_unassigned", "Putative"),
    ("Others_HGD_unassigned", "Putative"),
    ("fatty_acids-unassigned", "Putative")

  ]

  const Entries: seq<Entry> := Part0 + Part1 + Part2 + Part3

  /** The class labels the table uses. */
  const Labels: set<string> := {
    "Aliphatic_amine", "Putative", "SCFA", "E-MGC", "Other", "Aromatic",
    "alcohol-SCFA", "Aliphatic_amine-SCFA", "npAA"
  }

  /** The keys written in a list of entries. */
  function KeySet(es: seq<Entry>): set<string> {
    set i | 0 <= i < |es| :: es[i].0
  }

  /** No key is written twice. */
  predicate DistinctKeys(es: seq<Entry>) {
    forall i, j :: 0 <= i < j < |es| ==> es[i].0 != es[j].0
  }

  /** Entry i is the last entry that writes its key. */
  predicate LastWrite(es: seq<Entry>, i: int)
    requires 0 <= i < |es|
  {
    forall j :: i < j < |es| ==> es[j].0 != es[i].0
  }

  /**
   * The dictionary a Python dict display evaluates to: the entries are
   * inserted left to right, so the last entry of a key decides its value.
   * It has exactly the keys the display writes.
   */
  function DictOf(es: seq<Entry>): (r: map<string, string>)
    ensures r.Keys == KeySet(es)
    decreases |es|
  {
    if es == [] then map[]
    else
      KeySetSnoc(es);
      DictOf(es[..|es| - 1])[es[|es| - 1].0 := es[|es| - 1].1]
  }

  /** `cluster_class_dict`. */
  const ClusterClassDict: map<string, string> := DictOf(Entries)

  lemma KeySetSnoc(es: seq<Entry>)
    requires es != []
    ensures KeySet(es) == KeySet(es[..|es| - 1]) + {es[|es| - 1].0}
  {
    var n := |es| - 1;
    forall k | k in KeySet(es) ensures k in KeySet(es[..n]) + {es[n].0} {
      var i :| 0 <= i < |es| && es[i].0 == k;
      if i < n { assert es[..n][i] == es[i]; }
    }
    forall k | k in KeySet(es[..n]) ensures k in KeySet(es) {
      var i :| 0 <= i < n && es[..n][i].0 == k;
      assert es[i] == es[..n][i];
    }
  }

  /** A key's value is the value of the last entry that writes it. */
  lemma {:induction false} DictOfLastWrite(es: seq<Entry>, i: int)
    requires 0 <= i < |es| && LastWrite(es, i)
    ensures es[i].0 in DictOf(es) && DictOf(es)[es[i].0] == es[i].1
    decreases |es|
  {
    var n := |es| - 1;
    if i < n {
      var p := es[..n];
      assert p[i] == es[i];
      assert LastWrite(p, i) by {
        forall j | i < j < |p| ensures p[j].0 != p[i].0 { assert p[j] == es[j]; }
      }
      DictOfLastWrite(p, i);
    }
  }

  /** Every value of the dictionary comes from the last entry of its key. */
  lemma {:induction false} DictOfValueSource(es: seq<Entry>, k: string)
    requires k in DictOf(es)
    ensures exists i :: 0 <= i < |es| && es[i] == (k, DictOf(es)[k]) && LastWrite(es, i)
    decreases |es|
  {
    var n := |es| - 1;
    if es[n].0 != k {
      var p := es[..n];
      DictOfValueSource(p, k);
      var i :| 0 <= i < |p| && p[i] == (k, DictOf(p)[k]) && LastWrite(p, i);
      assert es[i] == p[i];
      assert LastWrite(es, i) by {
        forall j | i < j < |es| ensures es[j].0 != es[i].0 {
          if j < n { assert es[j] == p[j]; }
        }
      }
    } else {
      assert LastWrite(es, n);
    }
  }

  /** Without repeated keys, the display has as many keys as entries. */
  lemma {:induction false} DistinctKeySetSize(es: seq<Entry>)
    requires DistinctKeys(es)
    ensures |KeySet(es)| == |es|
    decreases |es|
  {
    if es != [] {
      var n := |es| - 1;
      var p := es[..n];
      assert DistinctKeys(p) by {
        forall i, j | 0 <= i < j < |p| ensures p[i].0 != p[j].0 {
          assert p[i] == es[i] && p[j] == es[j];
        }
      }
      DistinctKeySetSize(p);
      KeySetSnoc(es);
      assert es[n].0 !in KeySet(p);
    }
  }

  /** One repeated key, written at a and again at b, costs exactly one key. */
  lemma OneRepeatSize(es: seq<Entry>, a: int, b: int)
    requires 0 <= a < b < |es| && es[a].0 == es[b].0
    requires forall i, j :: 0 <= i < j < |es| && es[i].0 == es[j].0 ==> i == a && j == b
    ensures |KeySet(es)| == |es| - 1
  {
    var q := es[..a] + es[a + 1..];
    assert forall i :: 0 <= i < a ==> q[i] == es[i];
    assert forall i :: a <= i < |q| ==> q[i] == es[i + 1];
    assert DistinctKeys(q);
    DistinctKeySetSize(q);
    assert KeySet(es) == KeySet(q) by {
      forall k | k in KeySet(es) ensures k in KeySet(q) {
        var i :| 0 <= i < |es| && es[i].0 == k;
        if i < a { assert q[i] == es[i]; }
        else if i == a { assert q[b - 1] == es[b]; }
        else { assert q[i - 1] == es[i]; }
      }
    }
  }

  /** No key is written in both lists. */
  predicate DisjointKeys(a: seq<Entry>, b: seq<Entry>) {
    forall i, j :: 0 <= i < |a| && 0 <= j < |b| ==> a[i].0 != b[j].0
  }

  // Which keys of the four parts coincide: only two inside Part2, at its
  // entries 4 and 10.

  lemma Part0Distinct() ensures DistinctKeys(Part0) {}
  lemma Part1Distinct() ensures DistinctKeys(Part1) {}
  lemma Part3Distinct() ensures DistinctKeys(Part3) {}

  lemma Part2Repeat()
    ensures forall i, j :: 0 <= i < j < |Part2| && Part2[i].0 == Part2[j].0 ==> i == 4 && j == 10
  {
  }

  lemma Part01Disjoint() ensures DisjointKeys(Part0, Part1) {}
  lemma Part02Disjoint() ensures DisjointKeys(Part0, Part2) {}
  lemma Part03Disjoint() ensures DisjointKeys(Part0, Part3) {}
  lemma Part12Disjoint() ensures DisjointKeys(Part1, Part2) {}
  lemma Part13Disjoint() ensures DisjointKeys(Part1, Part3) {}
  lemma Part23Disjoint() ensures DisjointKeys(Part2, Part3) {}

  /** Keys are written once each, except `succinate2propionate` (entries 36 and 42). */
  lemma OnlyRepeat()
    ensures forall i, j :: 0 <= i < j < |Entries| && Entries[i].0 == Entries[j].0 ==> i == 36 && j == 42
  {
    Part0Distinct();
    Part1Distinct();
    Part2Repeat();
    Part3Distinct();
    Part01Disjoint();
    Part02Disjoint();
    Part03Disjoint();
    Part12Disjoint();
    Part13Disjoint();
    Part23Disjoint();
  }

  /** Because of the repeat, the dictionary has one key fewer than the display has entries. */
  lemma DistinctKeyCount()
    ensures |Entries| == 62 && |ClusterClassDict| == |Entries| - 1
  {
    OnlyRepeat();
    OneRepeatSize(Entries, 36, 42);
    assert |ClusterClassDict| == |ClusterClassDict.Keys|;
  }

  /** Every entry of the display carries one of the nine labels. */
  lemma EntryLabels()
    ensures forall i :: 0 <= i < |Entries| ==> Entries[i].1 in Labels
  {
    assert forall i :: 0 <= i < |Part0| ==> Part0[i].1 in Labels;
    assert forall i :: 0 <= i < |Part1| ==> Part1[i].1 in Labels;
    assert forall i :: 0 <= i < |Part2| ==> Part2[i].1 in Labels;
    assert forall i :: 0 <= i < |Part3| ==> Part3[i].1 in Labels;
  }

  /** A key named after an oxidoreductase, TPP enzyme, glycyl radical enzyme or flavoenzyme family. */
  predicate PutativeFamily(k: string) {
    "OD_" <= k || "TPP_" <= k || "GR_" <= k || "Flavoenzyme_" <= k
  }

  /** A key whose first two characters begin none of the four family prefixes names no such family. */
  lemma NotPutativeFamilyByHead(k: string)
    requires |k| >= 2
    requires !((k[0] == 'O' && k[1] == 'D') || (k[0] == 'T' && k[1] == 'P') ||
               (k[0] == 'G' && k[1] == 'R') || (k[0] == 'F' && k[1] == 'l'))
    ensures !PutativeFamily(k)
  {
  }

  /** In this list, every entry whose key names such an enzyme family is labelled Putative. */
  predicate FamiliesPutative(es: seq<Entry>) {
    forall i :: 0 <= i < |es| && PutativeFamily(es[i].0) ==> es[i].1 == "Putative"
  }

  lemma PartFamilies(es: seq<Entry>)
    requires es == Part0 || es == Part1 || es == Part2 || es == Part3
    ensures FamiliesPutative(es)
  {
    forall i | 0 <= i < |es| && es[i].1 != "Putative" ensures !PutativeFamily(es[i].0) {
      NotPutativeFamilyByHead(es[i].0);
    }
  }

  /** Every entry whose key names such an enzyme family is labelled Putative. */
  lemma EntryFamilies()
    ensures FamiliesPutative(Entries)
  {
    PartFamilies(Part0);
    PartFamilies(Part1);
    PartFamilies(Part2);
    PartFamilies(Part3);
  }

  /**
   * Looking an identifier up in `cluster_class_dict`: its label, or None
   * when the display does not write that key.
   */
  function Lookup(id: string): (r: Option<string>)
    ensures r.Some? <==> id in KeySet(Entries)
    ensures r.Some? ==> exists i :: 0 <= i < |Entries| && Entries[i] == (id, r.value) && LastWrite(Entries, i)
    ensures r.Some? ==> r.value in Labels
    ensures r.Some? && PutativeFamily(id) ==> r.value == "Putative"
  {
    if id in ClusterClassDict then
      DictOfValueSource(Entries, id);
      EntryLabels();
      EntryFamilies();
      Some(ClusterClassDict[id])
    else
      None
  }

  /** Every value of the table is one of the nine labels. */
  lemma TableLabels()
    ensures forall k :: k in ClusterClassDict ==> ClusterClassDict[k] in Labels
  {
    forall k | k in ClusterClassDict ensures ClusterClassDict[k] in Labels {
      assert Lookup(k) == Some(ClusterClassDict[k]);
    }
  }

  /** The key written twice keeps the value both entries give it. */
  lemma RepeatedKey()
    ensures Entries[36] == Entries[42] == ("succinate2propionate", "SCFA")
    ensures Lookup("succinate2propionate") == Some("SCFA")
  {
    OnlyRepeat();
    DictOfLastWrite(Entries, 42);
  }

  /** Looking up the key of an entry that is its key's last write gives that entry's label. */
  lemma LookupLastWrite(i: int)
    requires 0 <= i < |Entries| && LastWrite(Entries, i)
    ensures Lookup(Entries[i].0) == Some(Entries[i].1)
  {
    DictOfLastWrite(Entries, i);
  }

  /** Some entries of the table. */
  lemma SampleEntries()
    ensures Lookup("pdu") == Some("alcohol-SCFA")
    ensures Lookup("TMA") == Some("Aliphatic_amine-SCFA")
    ensures Lookup("proline2aminovalerate") == Some("npAA")
    ensures Lookup("Rnf_complex") == Some("E-MGC")
  {
    OnlyRepeat();
    LookupLastWrite(19);
    LookupLastWrite(21);
    LookupLastWrite(24);
    LookupLastWrite(10);
  }

  /** An identifier the display does not write is not found. */
  lemma UnknownNotFound(id: string)
    requires forall i :: 0 <= i < |Entries| ==> Entries[i].0 != id
    ensures Lookup(id) == None
  {
  }
}
