/**
 * The enemy factory of `10_exercises/01_exercise.js`: `EnemyFactory.createEnemy`
 * maps a type name to a freshly constructed `Goblin`, `Orc` or `Dragon` and
 * throws for any other name. An enemy's `health` changes in place when it
 * takes damage; its console lines are returned.
 */
module EnemyFactory {
  import opened Wrappers
  import Strings

  /** `Dragon` overrides `attack`; every other enemy uses `Enemy.attack`. */
  datatype Kind = Plain | Dragon

  /** What a concrete constructor passes to `super`. */
  datatype Stats = Stats(kind: Kind, name: string, health: int, attackPower: int)

  /** The line `attack()` logs. */
  function AttackLine(kind: Kind, name: string, attackPower: int): (line: string)
    ensures Strings.StartsWith(line, name + " ")
    ensures line[|line| - 1] == '!'
  {
    var verb := if kind == Dragon then "breathes FIRE with power " else "attacks with power ";
    var line := name + " " + verb + Strings.IntToString(attackPower) + "!";
    assert line[..|name + " "|] == name + " ";
    line
  }

  /** The line `takeDamage(damage)` logs, with the health after the hit. */
  function DamageLine(name: string, damage: int, health: int): (line: string)
    ensures Strings.StartsWith(line, name + " takes ")
  {
    var line := name + " takes " + Strings.IntToString(damage) + " damage, remaining health: " + Strings.IntToString(health);
    assert line[..|name + " takes "|] == name + " takes ";
    line
  }

  /** An enemy; `Goblin`, `Orc` and `Dragon` only fix the constructor's arguments. */
  class Enemy {
    const kind: Kind
    const name: string
    var health: int
    const attackPower: int

    /** `new Enemy(name, health, attackPower)`, or a subclass constructor through `super`. */
    constructor(kind: Kind, name: string, health: int, attackPower: int)
      ensures this.kind == kind && this.name == name && this.health == health && this.attackPower == attackPower
    {
      this.kind := kind;
      this.name := name;
      this.health := health;
      this.attackPower := attackPower;
    }

    /** `attack()`: logs one line and changes nothing. */
    method Attack() returns (line: string)
      ensures line == AttackLine(kind, name, attackPower)
    {
      line := AttackLine(kind, name, attackPower);
    }

    /** `takeDamage(damage)`: health drops by `damage`, with no lower bound; the name and attack power stay. */
    method TakeDamage(damage: int) returns (line: string)
      modifies this
      ensures health == old(health) - damage
      ensures line == DamageLine(name, damage, health)
    {
      health := health - damage;
      line := DamageLine(name, damage, health);
    }
  }

  /** The stats `createEnemy` constructs for a type, or `None` where it throws. */
  function StatsOf(enemyType: string): (r: Option<Stats>)
    ensures r.Some? <==> enemyType == "Goblin" || enemyType == "Orc" || enemyType == "Dragon"
    ensures r.Some? ==> r.value.name == enemyType && r.value.health > 0 && r.value.attackPower > 0
    ensures r.Some? ==> (r.value.kind == Dragon <==> enemyType == "Dragon")
  {
    if enemyType == "Goblin" then Some(Stats(Plain, "Goblin", 30, 5))
    else if enemyType == "Orc" then Some(Stats(Plain, "Orc", 60, 12))
    else if enemyType == "Dragon" then Some(Stats(Dragon, "Dragon", 200, 25))
    else None
  }

  /** The three enemy types with their health and attack power. */
  lemma EnemyTable()
    ensures StatsOf("Goblin") == Some(Stats(Plain, "Goblin", 30, 5))
    ensures StatsOf("Orc") == Some(Stats(Plain, "Orc", 60, 12))
    ensures StatsOf("Dragon") == Some(Stats(Dragon, "Dragon", 200, 25))
  {
  }

  /** The message `createEnemy` throws for an unknown type. */
  function UnknownType(enemyType: string): string {
    "Unknown enemy type: " + enemyType
  }

  /** `EnemyFactory.createEnemy(type)`: a new enemy with the type's stats, or the error. */
  method CreateEnemy(enemyType: string) returns (r: Result<Enemy>)
    ensures r.Ok? <==> StatsOf(enemyType).Some?
    ensures r.Err? ==> r.message == UnknownType(enemyType)
    ensures r.Ok? ==> fresh(r.value)
    ensures r.Ok? ==> Stats(r.value.kind, r.value.name, r.value.health, r.value.attackPower) == StatsOf(enemyType).value
  {
    var stats := StatsOf(enemyType);
    if stats.None? {
      return Err(UnknownType(enemyType));
    }
    var enemy := new Enemy(stats.value.kind, stats.value.name, stats.value.health, stats.value.attackPower);
    return Ok(enemy);
  }

  /** Health has no lower bound: a goblin hit for 40 is left at -10. */
  method OverkillGoblin() returns (health: int)
    ensures health == -10
  {
    var r := CreateEnemy("Goblin");
    var goblin := r.value;
    var _ := goblin.TakeDamage(40);
    health := goblin.health;
  }

  /** One enemy's turn in the game example: it attacks, then takes 10 damage. */
  method Turn(enemy: Enemy) returns (lines: seq<string>)
    modifies enemy
    ensures enemy.health == old(enemy.health) - 10
    ensures lines == [AttackLine(enemy.kind, enemy.name, enemy.attackPower), DamageLine(enemy.name, 10, enemy.health)]
  {
    var attack := enemy.Attack();
    var damage := enemy.TakeDamage(10);
    lines := [attack, damage];
  }

  /** The game example: a goblin, an orc and a dragon each attack and are left with 20, 50 and 190 health. */
  method GameExample() returns (lines: seq<string>, healths: seq<int>)
    ensures |lines| == 6
    ensures healths == [20, 50, 190]
  {
    var goblin := CreateEnemy("Goblin");
    var orc := CreateEnemy("Orc");
    var dragon := CreateEnemy("Dragon");
    var enemies := [goblin.value, orc.value, dragon.value];
    lines := [];
    healths := [];
    var l0 := Turn(enemies[0]);
    var l1 := Turn(enemies[1]);
    var l2 := Turn(enemies[2]);
    lines := l0 + l1 + l2;
    healths := [enemies[0].health, enemies[1].health, enemies[2].health];
  }
}
