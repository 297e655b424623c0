/** Full topic names: the database name, an underscore, the topic. */
module TopicNames {
  function FullName(db: string, topic: string): string {
    db + "_" + topic
  }

  /** Within one database the full name determines the topic. */
  lemma OneNamePerTopic(db: string, t: string, u: string)
    requires FullName(db, t) == FullName(db, u)
    ensures t == u
  {
    assert FullName(db, t)[|db| + 1..] == t;
    assert FullName(db, u)[|db| + 1..] == u;
  }

  ghost predicate Separate(db: string, other: string) {
    forall t, u :: FullName(db, t) != FullName(other, u)
  }

  /** Two databases share no full topic name exactly if neither name, with its underscore, begins the other. */
  lemma SeparateExactly(db: string, other: string)
    ensures Separate(db, other) <==> !(db + "_" <= other + "_") && !(other + "_" <= db + "_")
  {
    if db + "_" <= other + "_" {
      var t, u := SharedName(db, other);
    } else if other + "_" <= db + "_" {
      var t, u := SharedName(other, db);
      assert FullName(db, u) == FullName(other, t);
    } else {
      forall t, u
        ensures FullName(db, t) != FullName(other, u)
      {
        if FullName(db, t) == FullName(other, u) {
          if |db| <= |other| {
            NamesBegin(db, t, other, u);
          } else {
            NamesBegin(other, u, db, t);
          }
        }
      }
    }
  }

  lemma SharedName(db: string, other: string) returns (t: string, u: string)
    requires db + "_" <= other + "_"
    ensures FullName(db, t) == FullName(other, u)
  {
    u := "x";
    t := FullName(other, u)[|db| + 1..];
    assert FullName(other, u)[..|db| + 1] == (other + "_")[..|db| + 1] == db + "_";
  }

  lemma NamesBegin(db: string, t: string, other: string, u: string)
    requires FullName(db, t) == FullName(other, u) && |db| <= |other|
    ensures db + "_" <= other + "_"
  {
    assert (db + "_") == FullName(db, t)[..|db| + 1] == FullName(other, u)[..|db| + 1] == (other + "_")[..|db| + 1];
  }

  /** Databases whose names have no underscore are separate. */
  lemma PlainNamesAreSeparate(db: string, other: string)
    requires db != other && '_' !in db && '_' !in other
    ensures Separate(db, other)
  {
    SeparateExactly(db, other);
    NotABeginning(db, other);
    NotABeginning(other, db);
  }

  lemma NotABeginning(db: string, other: string)
    requires db != other && '_' !in other
    ensures !(db + "_" <= other + "_")
  {
    assert |db| < |other| ==> (other + "_")[|db|] == other[|db|] != (db + "_")[|db|];
    assert (db + "_")[..|db|] == db && (other + "_")[..|other|] == other;
  }

  /** Different database names do not keep topics apart in general. */
  lemma DatabasesCanShareATopic()
    ensures FullName("net", "eu_chat") == FullName("net_eu", "chat")
  {
    assert FullName("net", "eu_chat") == "net_eu_chat" == FullName("net_eu", "chat");
  }
}
