/** Record shapes of the tracker: quests, categories, perks and the character's stats.
    Identifiers, names, descriptions and timestamps are opaque strings; numbers that the
    application treats as integers are `int`, quest rewards are `nat`. */
module Types {

  datatype Option<T> = None | Some(value: T)

  /** The recurrence tag of a quest. */
  datatype Frequency = Daily | Weekly | Challenge

  datatype Quest = Quest(
    id: string,
    name: string,
    description: string,
    xp: nat,
    gold: nat,
    category: string,
    frequency: Frequency,
    completed: bool,
    createdAt: string,
    completedAt: Option<string>)

  datatype Category = Category(id: string, name: string, color: string)

  datatype Perk = Perk(
    id: string,
    name: string,
    description: string,
    level: int,
    unlocked: bool,
    cost: Option<int>)

  datatype UserStats = UserStats(
    level: int,
    xp: int,
    gold: int,
    nextLevelXp: int,
    categories: seq<Category>,
    perks: seq<Perk>)

  /** The fields a user supplies for a new quest; the store adds id, flag and timestamps. */
  datatype QuestDraft = QuestDraft(
    name: string,
    description: string,
    xp: nat,
    gold: nat,
    category: string,
    frequency: Frequency)

  /** A partial stats record: a present field overwrites, an absent one is kept. */
  datatype StatsPatch = StatsPatch(
    level: Option<int>,
    xp: Option<int>,
    gold: Option<int>,
    nextLevelXp: Option<int>,
    categories: Option<seq<Category>>,
    perks: Option<seq<Perk>>)
}
