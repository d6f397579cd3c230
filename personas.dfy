/** The persona table of the chat session: eight fixed roles, each with the
    instruction text put at the head of every prompt for that role and a
    display emoji. The table is keyed by role name; the names carry their own
    emoji, spelled out here as Unicode escapes. */
module Personas {
  import Text
  import opened Wrappers

  /** The eight roles of the table. */
  datatype Role = Mom | Dad | BigBrother | Sister | BestFriend | Teacher | Counselor | MotivationalCoach

  /** The key of a role in the table, as the role selector shows it. */
  function Name(r: Role): string {
    match r
    case Mom => "Mom \U{1F469}\U{200D}\U{1F467}\U{200D}\U{1F466}"
    case Dad => "Dad \U{1F468}\U{200D}\U{1F467}\U{200D}\U{1F466}"
    case BigBrother => "Big Brother \U{1F466}"
    case Sister => "Sister \U{1F467}"
    case BestFriend => "Best Friend \U{1F46B}"
    case Teacher => "Teacher \U{1F469}\U{200D}\U{1F3EB}"
    case Counselor => "Counselor \U{1F9D1}\U{200D}\U{2695}\U{FE0F}"
    case MotivationalCoach => "Motivational Coach \U{1F4AA}"
  }

  /** The instruction text of a role. */
  function SystemPrompt(r: Role): string {
    match r
    case Mom =>
      "You are a loving and caring mother. Respond with warmth, patience, and "
      + "understanding. Give practical advice while showing concern for your child's "
      + "wellbeing. Use a nurturing tone and always prioritize their happiness and "
      + "safety. Show motherly care in every response."
    case Dad =>
      "You are a wise and supportive father. Provide practical solutions, motivation, "
      + "and confidence-building advice. Use a slightly serious but caring tone. Share "
      + "life lessons and help build character. Be the strong pillar of support."
    case BigBrother =>
      "You are a cool and understanding big brother. Use casual language, make jokes, "
      + "but give serious advice when needed. Be protective and supportive. Mix humor "
      + "with wisdom. Use bro language and be relatable."
    case Sister =>
      "You are a sweet and caring sister. Provide emotional support, share gossip, talk "
      + "about life, fashion, and relationships. Use a loving and understanding tone. Be "
      + "the person they can share anything with."
    case BestFriend =>
      "You are their best friend. Be completely casual and relaxed. Make jokes, have "
      + "fun, but give honest advice when needed. Use slang, be relatable, and create a "
      + "judgment-free zone. Be the person they can be themselves with."
    case Teacher =>
      "You are a patient and knowledgeable teacher. Explain things clearly, encourage "
      + "learning, and provide educational guidance. Be supportive but maintain some "
      + "authority. Help them grow intellectually and personally."
    case Counselor =>
      "You are a professional counselor. Listen actively, provide mental health "
      + "support, and offer therapeutic guidance. Be empathetic, non-judgmental, and help "
      + "them process their emotions and thoughts safely."
    case MotivationalCoach =>
      "You are an energetic motivational coach. Push them to achieve their goals, "
      + "provide inspiration, and help build confidence. Use powerful, encouraging "
      + "language. Be their cheerleader and help them overcome obstacles."
  }

  function Emoji(r: Role): string {
    match r
    case Mom => "\U{1F917}"
    case Dad => "\U{1F4AA}"
    case BigBrother => "\U{1F60E}"
    case Sister => "\U{1F495}"
    case BestFriend => "\U{1F91D}"
    case Teacher => "\U{1F4DA}"
    case Counselor => "\U{1F3AD}"
    case MotivationalCoach => "\U{1F3C6}"
  }

  /** The role table, keyed by role name. A role's entry gives its instruction
      text, `SystemPrompt`, and its emoji, `Emoji`. */
  function Table(): map<string, Role> {
    map[
      Name(Mom) := Mom,
      Name(Dad) := Dad,
      Name(BigBrother) := BigBrother,
      Name(Sister) := Sister,
      Name(BestFriend) := BestFriend,
      Name(Teacher) := Teacher,
      Name(Counselor) := Counselor,
      Name(MotivationalCoach) := MotivationalCoach
    ]
  }

  /** The role the selector starts on. */
  function DefaultRole(): string {
    Name(BestFriend)
  }

  /** No two roles share a name. */
  lemma NamesDistinct()
    ensures forall r1: Role, r2: Role :: Name(r1) == Name(r2) ==> r1 == r2
  {
  }

  /** The table holds the eight roles, each under its own name, in eight
      entries; the selector's starting role is among them. */
  lemma TableHoldsEightRoles()
    ensures forall r: Role :: Name(r) in Table() && Table()[Name(r)] == r
    ensures |Table()| == 8
    ensures DefaultRole() in Table()
  {
    NamesDistinct();
    forall r: Role
      ensures Name(r) in Table() && Table()[Name(r)] == r
    {
    }
  }

  /** Every role the table knows has a first word, so building a prompt for it
      never fails at Python's `role.split()[0]`. */
  lemma TableRolesHaveAWord(name: string)
    requires name in Table()
    ensures Text.FirstWord(name).Some?
  {
    assert !Text.IsSpace(name[0]);
  }

  /** The first word of a role's name, the word the prompt asks the model to
      answer as. */
  function Word(r: Role): string {
    match r
    case Mom => "Mom"
    case Dad => "Dad"
    case BigBrother => "Big"
    case Sister => "Sister"
    case BestFriend => "Best"
    case Teacher => "Teacher"
    case Counselor => "Counselor"
    case MotivationalCoach => "Motivational"
  }

  /** `split()[0]` of every role's name is its `Word`: the two-word roles are
      asked to answer as a "Big", a "Best" and a "Motivational". */
  lemma RoleFirstWord(r: Role)
    ensures Text.FirstWord(Name(r)) == Some(Word(r))
  {
    match r
    case Mom =>
      assert Name(Mom) == "Mom" + " \U{1F469}\U{200D}\U{1F467}\U{200D}\U{1F466}";
      Text.FirstWordOfName("Mom", " \U{1F469}\U{200D}\U{1F467}\U{200D}\U{1F466}");
    case Dad =>
      assert Name(Dad) == "Dad" + " \U{1F468}\U{200D}\U{1F467}\U{200D}\U{1F466}";
      Text.FirstWordOfName("Dad", " \U{1F468}\U{200D}\U{1F467}\U{200D}\U{1F466}");
    case BigBrother =>
      assert Name(BigBrother) == "Big" + " Brother \U{1F466}";
      Text.FirstWordOfName("Big", " Brother \U{1F466}");
    case Sister =>
      assert Name(Sister) == "Sister" + " \U{1F467}";
      Text.FirstWordOfName("Sister", " \U{1F467}");
    case BestFriend =>
      assert Name(BestFriend) == "Best" + " Friend \U{1F46B}";
      Text.FirstWordOfName("Best", " Friend \U{1F46B}");
    case Teacher =>
      assert Name(Teacher) == "Teacher" + " \U{1F469}\U{200D}\U{1F3EB}";
      Text.FirstWordOfName("Teacher", " \U{1F469}\U{200D}\U{1F3EB}");
    case Counselor =>
      assert Name(Counselor) == "Counselor" + " \U{1F9D1}\U{200D}\U{2695}\U{FE0F}";
      Text.FirstWordOfName("Counselor", " \U{1F9D1}\U{200D}\U{2695}\U{FE0F}");
    case MotivationalCoach =>
      assert Name(MotivationalCoach) == "Motivational" + " Coach \U{1F4AA}";
      Text.FirstWordOfName("Motivational", " Coach \U{1F4AA}");
  }
}
