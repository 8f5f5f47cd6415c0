/**
 * The trigger on every sphere (`SphereCollision`): an overlap with the player
 * tells the agent, if there is one, what kind of sphere it touched and then
 * destroys the sphere; other overlaps are ignored.
 */
module Collision {
  import opened Agent

  /** Tag the agent's game object carries. */
  const PlayerTag: string := "Player"

  /** A collider in the scene: its game object's tag and that object's `RobotAgent` component, if any. */
  class Collider {
    var isTrigger: bool
    const tag: string
    const agent: RobotAgent?

    constructor (tag: string, agent: RobotAgent?, isTrigger: bool)
      ensures this.tag == tag && this.agent == agent && this.isTrigger == isTrigger
    {
      this.tag := tag;
      this.agent := agent;
      this.isTrigger := isTrigger;
    }
  }

  class SphereCollision {
    var isGoodSphere: bool
    /** The sphere's own collider, or null when it has none. */
    const collider: Collider?
    /** Set once `Destroy(gameObject)` has been called on the sphere. */
    var destroyed: bool

    /** A freshly added component: a good sphere until the spawner says otherwise. */
    constructor (collider: Collider?)
      ensures this.collider == collider && isGoodSphere && !destroyed
    {
      this.collider := collider;
      isGoodSphere := true;
      destroyed := false;
    }

    /** Makes the sphere's collider a trigger, when it has one. */
    method Start()
      modifies collider
      ensures collider != null ==> collider.isTrigger
      ensures isGoodSphere == old(isGoodSphere) && destroyed == old(destroyed)
    {
      var sphereCollider := collider;
      if sphereCollider != null {
        sphereCollider.isTrigger := true;
      }
    }

    /**
     * An overlap with `other`. The score counters are not touched: the code
     * that would update them is commented out.
     */
    method OnTriggerEnter(other: Collider)
      modifies this`destroyed, other.agent
      ensures other.tag != PlayerTag ==> destroyed == old(destroyed)
      ensures other.tag != PlayerTag && other.agent != null ==>
                other.agent.cumulativeReward == old(other.agent.cumulativeReward)
      ensures other.tag == PlayerTag ==> destroyed
      ensures other.tag == PlayerTag && other.agent != null ==>
                other.agent.cumulativeReward == old(other.agent.cumulativeReward) + CollectionReward(isGoodSphere)
      ensures other.agent != null ==>
                other.agent.ended == old(other.agent.ended) && other.agent.episodeTimer == old(other.agent.episodeTimer)
      ensures other.agent != null ==>
                && other.agent.position == old(other.agent.position)
                && other.agent.velocity == old(other.agent.velocity)
                && other.agent.angularVelocity == old(other.agent.angularVelocity)
                && other.agent.movement == old(other.agent.movement)
                && other.agent.yRotation == old(other.agent.yRotation)
                && other.agent.isWalking == old(other.agent.isWalking)
      ensures isGoodSphere == old(isGoodSphere)
    {
      if other.tag == PlayerTag {
        var agent := other.agent;
        if agent != null {
          agent.OnSphereCollected(isGoodSphere);
        }
        destroyed := true;
      }
    }
  }
}
