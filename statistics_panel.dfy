/**
 * The statistics panel: the figures of the first switched-on
 * classification, or general figures when there is none or the table has
 * no entry for it.
 */
module StatisticsPanel {
  import opened Base
  import Assoc

  datatype Stats = Stats(prevalence: string, description: string, regionalData: string, regionalDescription: string)

  const DISEASE_STATS: seq<(string, Stats)> := [
    ("Ankylosing Spondylitis", Stats("1 in 200", "people have ankylosing spondylitis.",
                                     "325,000", "Americans are affected by AS.")),
    ("Hidradenitis Suppurativa", Stats("1 in 100", "people in the U.S. are diagnosed with hidradenitis supperativa.",
                                       "5023", "people in the northeast may have (HS).")),
    ("Multiple Sclerosis", Stats("1 in 330", "people in the U.S. have multiple sclerosis.",
                                 "1 million", "people live with MS worldwide.")),
    ("Asthma", Stats("1 in 13", "Americans have asthma.", "25 million", "Americans suffer from asthma.")),
    ("Breast Cancer", Stats("1 in 8", "women will develop breast cancer in their lifetime.",
                            "3.8 million", "breast cancer survivors in the U.S.")),
    ("Diabetes", Stats("1 in 10", "Americans have diabetes.", "37.3 million", "Americans live with diabetes.")),
    ("Heart Disease", Stats("1 in 4", "deaths in the U.S. are caused by heart disease.",
                            "697,000", "Americans die from heart disease each year.")),
    ("Hypertension", Stats("1 in 2", "adults in the U.S. have hypertension.",
                           "116 million", "Americans have high blood pressure.")),
    ("Migraine", Stats("1 in 6", "Americans experience migraines.", "39 million", "Americans suffer from migraines.")),
    ("Other", Stats("Millions", "of Americans live with chronic health conditions.",
                    "6 in 10", "adults in the U.S. have a chronic disease."))
  ]

  const DEFAULT_STATS := Stats("Millions", "of Americans live with chronic health conditions.",
                               "42%", "of US adults have multiple chronic conditions.")

  /** The index of the first switched-on entry. */
  predicate FirstOnAt(flags: seq<(string, bool)>, i: int) {
    0 <= i < |flags| && flags[i].1 && forall j :: 0 <= j < i ==> !flags[j].1
  }

  /** `Object.entries(activeFilters).find(entry => entry[1])`, reduced to its key. */
  function FirstActive(flags: seq<(string, bool)>): (r: Option<string>)
    ensures r.None? <==> forall i :: 0 <= i < |flags| ==> !flags[i].1
    ensures r.Some? ==> exists i :: FirstOnAt(flags, i) && flags[i].0 == r.value
  {
    if flags == [] then None
    else if flags[0].1 then
      assert FirstOnAt(flags, 0);
      Some(flags[0].0)
    else
      var r := FirstActive(flags[1..]);
      assert r.Some? ==> exists i :: FirstOnAt(flags, i) && flags[i].0 == r.value by {
        if r.Some? {
          var i :| FirstOnAt(flags[1..], i) && flags[1..][i].0 == r.value;
          assert FirstOnAt(flags, i + 1);
        }
      }
      assert r.None? ==> forall i :: 0 <= i < |flags| ==> !flags[i].1 by {
        if r.None? {
          forall i | 0 <= i < |flags| ensures !flags[i].1 {
            if i > 0 {
              assert flags[i] == flags[1..][i - 1];
            }
          }
        }
      }
      r
  }

  /** The first switched-on entry is unique. */
  lemma FirstOnUnique(flags: seq<(string, bool)>, i: int, j: int)
    requires FirstOnAt(flags, i) && FirstOnAt(flags, j)
    ensures i == j
  {
  }

  /** The panel's figures: those of the first switched-on classification (when its name is not empty), or the default. */
  function StatsFor(flags: seq<(string, bool)>): Stats {
    var active := FirstActive(flags);
    if active.Some? && active.value != "" then Assoc.Get(DISEASE_STATS, active.value).GetOr(DEFAULT_STATS)
    else DEFAULT_STATS
  }

  /** With nothing switched on the default figures are shown. */
  lemma NothingActive(flags: seq<(string, bool)>)
    requires forall i :: 0 <= i < |flags| ==> !flags[i].1
    ensures StatsFor(flags) == DEFAULT_STATS
  {
  }

  /**
   * The first switched-on classification decides: its table entry when it
   * has one, the default figures otherwise.
   */
  lemma FirstActiveDecides(flags: seq<(string, bool)>, i: int)
    requires FirstOnAt(flags, i) && flags[i].0 != ""
    ensures Assoc.HasKey(DISEASE_STATS, flags[i].0) ==> StatsFor(flags) == Assoc.Get(DISEASE_STATS, flags[i].0).value
    ensures !Assoc.HasKey(DISEASE_STATS, flags[i].0) ==> StatsFor(flags) == DEFAULT_STATS
  {
    var j :| FirstOnAt(flags, j) && flags[j].0 == FirstActive(flags).value;
    FirstOnUnique(flags, i, j);
  }

  /** The filterable psoriasis classifications and Sjögren's Syndrome have no figures of their own. */
  lemma NoFiguresFor(flags: seq<(string, bool)>, i: int)
    requires FirstOnAt(flags, i)
    requires flags[i].0 in {"Plaque Psoriasis", "Psoriatic Arthritis", "Sjögren's Syndrome"}
    ensures StatsFor(flags) == DEFAULT_STATS
  {
    assert forall k :: 0 <= k < |DISEASE_STATS| ==> DISEASE_STATS[k].0 != flags[i].0;
    FirstActiveDecides(flags, i);
  }

  /** Appending entries behind a switched-on one does not change which is first. */
  lemma {:induction false} FirstActiveAppend(flags: seq<(string, bool)>, more: seq<(string, bool)>, i: int)
    requires FirstOnAt(flags, i)
    ensures FirstActive(flags + more) == FirstActive(flags)
  {
    if !flags[0].1 {
      assert (flags + more)[1..] == flags[1..] + more;
      assert FirstOnAt(flags[1..], i - 1);
      FirstActiveAppend(flags[1..], more, i - 1);
    }
  }

  /** Flags after the first switched-on one, on or off, do not matter. */
  lemma LaterFlagsIgnored(flags: seq<(string, bool)>, more: seq<(string, bool)>, i: int)
    requires FirstOnAt(flags, i)
    ensures StatsFor(flags + more) == StatsFor(flags)
  {
    FirstActiveAppend(flags, more, i);
  }
}
