/**
 * The gift dispatcher of the `gift` relay: an exact, case-sensitive match of
 * a gift's display name against the 51 case labels of a `switch`, each
 * label selecting one handler. Handlers are opaque side effects; each is
 * represented by an identifier named after the function its case calls.
 */
module Gifts {
  import opened Wrappers

  /** The handler functions the `switch` can call, in case order. */
  datatype Handler =
    | HandleBravo
    | HandleRose
    | HandleHealthPotion
    | HandleTennis
    | HandleLoveLetter
    | HandleAlienPeaceSign
    | HandleFootball
    | HandleGG
    | HandleHiJuly
    | HandleMiniSpeaker
    | HandleLightningBolt
    | HandleCoffee
    | HandleIceCreamCone
    | HandleWeights
    | HandleTikTokLogo
    | HandleGardenGnome
    | HandleSquirrel
    | HandleDaisies
    | HandlePinkShoes
    | HandleDuckling
    | HandleChic
    | HandlePandas
    | HandleFingerHeart
    | HandleMic
    | HandleHi
    | HandleCottonsShell
    | HandleDanceTogether
    | HandleGoose
    | HandleLoveBalloon
    | HandleSwan
    | HandleTikTokTrophy
    | HandleShoes
    | HandleSilverGummy
    | HandlePearl
    | HandleTrain
    | HandleBadminton
    | HandleTravelWithYou
    | HandleDinosaur
    | HandleDiscoBall
    | HandleEmailMessage
    | HandleGalaxy
    | HandleGerryTheGiraffe
    | HandleGoldGummy
    | HandleGoldMine
    | HandleMagicLamp
    | HandleMirrorFlower
    | HandleSpace
    | HandleWatermelonLove
    | HandleDiamondTree
    | HandleFireworks
    | HandleDiamond

  // The case labels, written out exactly as the `switch` compares them.
  // The label of HandleCottonsShell contains U+2019 (a typographic
  // apostrophe), not the ASCII apostrophe.
  const Bravo: string := "Bravo"
  const Rose: string := "Rose"
  const HealthPotion: string := "Health Potion"
  const Tennis: string := "Tennis"
  const LoveLetter: string := "Love Letter"
  const AlienPeaceSign: string := "Alien Peace Sign"
  const Football: string := "Football"
  const GG: string := "GG"
  const HiJuly: string := "Hi July"
  const MiniSpeaker: string := "Mini Speaker"
  const LightningBolt: string := "Lightning Bolt"
  const Coffee: string := "Coffee"
  const IceCreamCone: string := "Ice Cream Cone"
  const Weights: string := "Weights"
  const TikTokLogo: string := "TikTok Logo"
  const GardenGnome: string := "Garden Gnome"
  const Squirrel: string := "Squirrel"
  const Daisies: string := "Daisies"
  const PinkShoes: string := "Pink Shoes"
  const Duckling: string := "Duckling"
  const Chic: string := "Chic"
  const Pandas: string := "Pandas"
  const FingerHeart: string := "Finger Heart"
  const Mic: string := "Mic"
  const Hi: string := "Hi"
  const CottonsShell: string := "Cotton\U{2019}s Shell"
  const DanceTogether: string := "Dance Together"
  const Goose: string := "Goose"
  const LoveBalloon: string := "LOVE Balloon"
  const Swan: string := "Swan"
  const TikTokTrophy: string := "TikTok Trophy"
  const Shoes: string := "Shoes"
  const SilverGummy: string := "Silver Gummy"
  const Pearl: string := "Pearl"
  const Train: string := "Train"
  const Badminton: string := "Badminton"
  const TravelWithYou: string := "Travel With You"
  const Dinosaur: string := "Dinosaur"
  const DiscoBall: string := "Disco Ball"
  const EmailMessage: string := "Email Message"
  const Galaxy: string := "Galaxy"
  const GerryTheGiraffe: string := "Gerry the Giraffe"
  const GoldGummy: string := "Gold Gummy"
  const GoldMine: string := "Gold Mine"
  const MagicLamp: string := "Magic Lamp"
  const MirrorFlower: string := "Mirror Flower"
  const Space: string := "Space"
  const WatermelonLove: string := "Watermelon Love"
  const DiamondTree: string := "Diamond Tree"
  const Fireworks: string := "Fireworks"
  const Diamond: string := "Diamond"

  /** The case label that selects handler `h`: the switch maps it back to `h`. */
  function Label(h: Handler): (s: string)
    ensures GiftHandler(s) == Some(h)
  {
    match h
    case HandleBravo => CaseBravo(Bravo); Bravo
    case HandleRose => CaseRose(Rose); Rose
    case HandleHealthPotion => CaseHealthPotion(HealthPotion); HealthPotion
    case HandleTennis => CaseTennis(Tennis); Tennis
    case HandleLoveLetter => CaseLoveLetter(LoveLetter); LoveLetter
    case HandleAlienPeaceSign => CaseAlienPeaceSign(AlienPeaceSign); AlienPeaceSign
    case HandleFootball => CaseFootball(Football); Football
    case HandleGG => CaseGG(GG); GG
    case HandleHiJuly => CaseHiJuly(HiJuly); HiJuly
    case HandleMiniSpeaker => CaseMiniSpeaker(MiniSpeaker); MiniSpeaker
    case HandleLightningBolt => CaseLightningBolt(LightningBolt); LightningBolt
    case HandleCoffee => CaseCoffee(Coffee); Coffee
    case HandleIceCreamCone => CaseIceCreamCone(IceCreamCone); IceCreamCone
    case HandleWeights => CaseWeights(Weights); Weights
    case HandleTikTokLogo => CaseTikTokLogo(TikTokLogo); TikTokLogo
    case HandleGardenGnome => CaseGardenGnome(GardenGnome); GardenGnome
    case HandleSquirrel => CaseSquirrel(Squirrel); Squirrel
    case HandleDaisies => CaseDaisies(Daisies); Daisies
    case HandlePinkShoes => CasePinkShoes(PinkShoes); PinkShoes
    case HandleDuckling => CaseDuckling(Duckling); Duckling
    case HandleChic => CaseChic(Chic); Chic
    case HandlePandas => CasePandas(Pandas); Pandas
    case HandleFingerHeart => CaseFingerHeart(FingerHeart); FingerHeart
    case HandleMic => CaseMic(Mic); Mic
    case HandleHi => CaseHi(Hi); Hi
    case HandleCottonsShell => CaseCottonsShell(CottonsShell); CottonsShell
    case HandleDanceTogether => CaseDanceTogether(DanceTogether); DanceTogether
    case HandleGoose => CaseGoose(Goose); Goose
    case HandleLoveBalloon => CaseLoveBalloon(LoveBalloon); LoveBalloon
    case HandleSwan => CaseSwan(Swan); Swan
    case HandleTikTokTrophy => CaseTikTokTrophy(TikTokTrophy); TikTokTrophy
    case HandleShoes => CaseShoes(Shoes); Shoes
    case HandleSilverGummy => CaseSilverGummy(SilverGummy); SilverGummy
    case HandlePearl => CasePearl(Pearl); Pearl
    case HandleTrain => CaseTrain(Train); Train
    case HandleBadminton => CaseBadminton(Badminton); Badminton
    case HandleTravelWithYou => CaseTravelWithYou(TravelWithYou); TravelWithYou
    case HandleDinosaur => CaseDinosaur(Dinosaur); Dinosaur
    case HandleDiscoBall => CaseDiscoBall(DiscoBall); DiscoBall
    case HandleEmailMessage => CaseEmailMessage(EmailMessage); EmailMessage
    case HandleGalaxy => CaseGalaxy(Galaxy); Galaxy
    case HandleGerryTheGiraffe => CaseGerryTheGiraffe(GerryTheGiraffe); GerryTheGiraffe
    case HandleGoldGummy => CaseGoldGummy(GoldGummy); GoldGummy
    case HandleGoldMine => CaseGoldMine(GoldMine); GoldMine
    case HandleMagicLamp => CaseMagicLamp(MagicLamp); MagicLamp
    case HandleMirrorFlower => CaseMirrorFlower(MirrorFlower); MirrorFlower
    case HandleSpace => CaseSpace(Space); Space
    case HandleWatermelonLove => CaseWatermelonLove(WatermelonLove); WatermelonLove
    case HandleDiamondTree => CaseDiamondTree(DiamondTree); DiamondTree
    case HandleFireworks => CaseFireworks(Fireworks); Fireworks
    case HandleDiamond => CaseDiamond(Diamond); Diamond
  }

  /**
   * `switch (giftName)` on a string: the cases are compared in order with
   * strict equality, and the first that matches selects its handler;
   * None is the `default` branch.
   */
  function GiftHandler(name: string): Option<Handler>
  {
    if name == Bravo then Some(HandleBravo)
    else if name == Rose then Some(HandleRose)
    else if name == HealthPotion then Some(HandleHealthPotion)
    else if name == Tennis then Some(HandleTennis)
    else if name == LoveLetter then Some(HandleLoveLetter)
    else if name == AlienPeaceSign then Some(HandleAlienPeaceSign)
    else if name == Football then Some(HandleFootball)
    else if name == GG then Some(HandleGG)
    else if name == HiJuly then Some(HandleHiJuly)
    else if name == MiniSpeaker then Some(HandleMiniSpeaker)
    else if name == LightningBolt then Some(HandleLightningBolt)
    else if name == Coffee then Some(HandleCoffee)
    else if name == IceCreamCone then Some(HandleIceCreamCone)
    else if name == Weights then Some(HandleWeights)
    else if name == TikTokLogo then Some(HandleTikTokLogo)
    else if name == GardenGnome then Some(HandleGardenGnome)
    else if name == Squirrel then Some(HandleSquirrel)
    else if name == Daisies then Some(HandleDaisies)
    else if name == PinkShoes then Some(HandlePinkShoes)
    else if name == Duckling then Some(HandleDuckling)
    else if name == Chic then Some(HandleChic)
    else if name == Pandas then Some(HandlePandas)
    else if name == FingerHeart then Some(HandleFingerHeart)
    else if name == Mic then Some(HandleMic)
    else if name == Hi then Some(HandleHi)
    else if name == CottonsShell then Some(HandleCottonsShell)
    else if name == DanceTogether then Some(HandleDanceTogether)
    else if name == Goose then Some(HandleGoose)
    else if name == LoveBalloon then Some(HandleLoveBalloon)
    else if name == Swan then Some(HandleSwan)
    else if name == TikTokTrophy then Some(HandleTikTokTrophy)
    else if name == Shoes then Some(HandleShoes)
    else if name == SilverGummy then Some(HandleSilverGummy)
    else if name == Pearl then Some(HandlePearl)
    else if name == Train then Some(HandleTrain)
    else if name == Badminton then Some(HandleBadminton)
    else if name == TravelWithYou then Some(HandleTravelWithYou)
    else if name == Dinosaur then Some(HandleDinosaur)
    else if name == DiscoBall then Some(HandleDiscoBall)
    else if name == EmailMessage then Some(HandleEmailMessage)
    else if name == Galaxy then Some(HandleGalaxy)
    else if name == GerryTheGiraffe then Some(HandleGerryTheGiraffe)
    else if name == GoldGummy then Some(HandleGoldGummy)
    else if name == GoldMine then Some(HandleGoldMine)
    else if name == MagicLamp then Some(HandleMagicLamp)
    else if name == MirrorFlower then Some(HandleMirrorFlower)
    else if name == Space then Some(HandleSpace)
    else if name == WatermelonLove then Some(HandleWatermelonLove)
    else if name == DiamondTree then Some(HandleDiamondTree)
    else if name == Fireworks then Some(HandleFireworks)
    else if name == Diamond then Some(HandleDiamond)
    else None
  }

  // One fact per case: the label selects its handler, and no other name does.

  lemma CaseBravo(name: string)
    ensures GiftHandler(name) == Some(HandleBravo) <==> name == Bravo
  {
  }

  lemma CaseRose(name: string)
    ensures GiftHandler(name) == Some(HandleRose) <==> name == Rose
  {
  }

  lemma CaseHealthPotion(name: string)
    ensures GiftHandler(name) == Some(HandleHealthPotion) <==> name == HealthPotion
  {
  }

  lemma CaseTennis(name: string)
    ensures GiftHandler(name) == Some(HandleTennis) <==> name == Tennis
  {
  }

  lemma CaseLoveLetter(name: string)
    ensures GiftHandler(name) == Some(HandleLoveLetter) <==> name == LoveLetter
  {
  }

  lemma CaseAlienPeaceSign(name: string)
    ensures GiftHandler(name) == Some(HandleAlienPeaceSign) <==> name == AlienPeaceSign
  {
  }

  lemma CaseFootball(name: string)
    ensures GiftHandler(name) == Some(HandleFootball) <==> name == Football
  {
  }

  lemma CaseGG(name: string)
    ensures GiftHandler(name) == Some(HandleGG) <==> name == GG
  {
  }

  lemma CaseHiJuly(name: string)
    ensures GiftHandler(name) == Some(HandleHiJuly) <==> name == HiJuly
  {
  }

  lemma CaseMiniSpeaker(name: string)
    ensures GiftHandler(name) == Some(HandleMiniSpeaker) <==> name == MiniSpeaker
  {
  }

  lemma CaseLightningBolt(name: string)
    ensures GiftHandler(name) == Some(HandleLightningBolt) <==> name == LightningBolt
  {
  }

  lemma CaseCoffee(name: string)
    ensures GiftHandler(name) == Some(HandleCoffee) <==> name == Coffee
  {
  }

  lemma CaseIceCreamCone(name: string)
    ensures GiftHandler(name) == Some(HandleIceCreamCone) <==> name == IceCreamCone
  {
  }

  lemma CaseWeights(name: string)
    ensures GiftHandler(name) == Some(HandleWeights) <==> name == Weights
  {
  }

  lemma CaseTikTokLogo(name: string)
    ensures GiftHandler(name) == Some(HandleTikTokLogo) <==> name == TikTokLogo
  {
  }

  lemma CaseGardenGnome(name: string)
    ensures GiftHandler(name) == Some(HandleGardenGnome) <==> name == GardenGnome
  {
  }

  lemma CaseSquirrel(name: string)
    ensures GiftHandler(name) == Some(HandleSquirrel) <==> name == Squirrel
  {
  }

  lemma CaseDaisies(name: string)
    ensures GiftHandler(name) == Some(HandleDaisies) <==> name == Daisies
  {
  }

  lemma CasePinkShoes(name: string)
    ensures GiftHandler(name) == Some(HandlePinkShoes) <==> name == PinkShoes
  {
  }

  lemma CaseDuckling(name: string)
    ensures GiftHandler(name) == Some(HandleDuckling) <==> name == Duckling
  {
  }

  lemma CaseChic(name: string)
    ensures GiftHandler(name) == Some(HandleChic) <==> name == Chic
  {
  }

  lemma CasePandas(name: string)
    ensures GiftHandler(name) == Some(HandlePandas) <==> name == Pandas
  {
  }

  lemma CaseFingerHeart(name: string)
    ensures GiftHandler(name) == Some(HandleFingerHeart) <==> name == FingerHeart
  {
  }

  lemma CaseMic(name: string)
    ensures GiftHandler(name) == Some(HandleMic) <==> name == Mic
  {
  }

  lemma CaseHi(name: string)
    ensures GiftHandler(name) == Some(HandleHi) <==> name == Hi
  {
  }

  lemma CaseCottonsShell(name: string)
    ensures GiftHandler(name) == Some(HandleCottonsShell) <==> name == CottonsShell
  {
  }

  lemma CaseDanceTogether(name: string)
    ensures GiftHandler(name) == Some(HandleDanceTogether) <==> name == DanceTogether
  {
  }

  lemma CaseGoose(name: string)
    ensures GiftHandler(name) == Some(HandleGoose) <==> name == Goose
  {
  }

  lemma CaseLoveBalloon(name: string)
    ensures GiftHandler(name) == Some(HandleLoveBalloon) <==> name == LoveBalloon
  {
  }

  lemma CaseSwan(name: string)
    ensures GiftHandler(name) == Some(HandleSwan) <==> name == Swan
  {
  }

  lemma CaseTikTokTrophy(name: string)
    ensures GiftHandler(name) == Some(HandleTikTokTrophy) <==> name == TikTokTrophy
  {
  }

  lemma CaseShoes(name: string)
    ensures GiftHandler(name) == Some(HandleShoes) <==> name == Shoes
  {
  }

  lemma CaseSilverGummy(name: string)
    ensures GiftHandler(name) == Some(HandleSilverGummy) <==> name == SilverGummy
  {
  }

  lemma CasePearl(name: string)
    ensures GiftHandler(name) == Some(HandlePearl) <==> name == Pearl
  {
  }

  lemma CaseTrain(name: string)
    ensures GiftHandler(name) == Some(HandleTrain) <==> name == Train
  {
  }

  lemma CaseBadminton(name: string)
    ensures GiftHandler(name) == Some(HandleBadminton) <==> name == Badminton
  {
  }

  lemma CaseTravelWithYou(name: string)
    ensures GiftHandler(name) == Some(HandleTravelWithYou) <==> name == TravelWithYou
  {
  }

  lemma CaseDinosaur(name: string)
    ensures GiftHandler(name) == Some(HandleDinosaur) <==> name == Dinosaur
  {
  }

  lemma CaseDiscoBall(name: string)
    ensures GiftHandler(name) == Some(HandleDiscoBall) <==> name == DiscoBall
  {
  }

  lemma CaseEmailMessage(name: string)
    ensures GiftHandler(name) == Some(HandleEmailMessage) <==> name == EmailMessage
  {
  }

  lemma CaseGalaxy(name: string)
    ensures GiftHandler(name) == Some(HandleGalaxy) <==> name == Galaxy
  {
  }

  lemma CaseGerryTheGiraffe(name: string)
    ensures GiftHandler(name) == Some(HandleGerryTheGiraffe) <==> name == GerryTheGiraffe
  {
  }

  lemma CaseGoldGummy(name: string)
    ensures GiftHandler(name) == Some(HandleGoldGummy) <==> name == GoldGummy
  {
  }

  lemma CaseGoldMine(name: string)
    ensures GiftHandler(name) == Some(HandleGoldMine) <==> name == GoldMine
  {
  }

  lemma CaseMagicLamp(name: string)
    ensures GiftHandler(name) == Some(HandleMagicLamp) <==> name == MagicLamp
  {
  }

  lemma CaseMirrorFlower(name: string)
    ensures GiftHandler(name) == Some(HandleMirrorFlower) <==> name == MirrorFlower
  {
  }

  lemma CaseSpace(name: string)
    ensures GiftHandler(name) == Some(HandleSpace) <==> name == Space
  {
  }

  lemma CaseWatermelonLove(name: string)
    ensures GiftHandler(name) == Some(HandleWatermelonLove) <==> name == WatermelonLove
  {
  }

  lemma CaseDiamondTree(name: string)
    ensures GiftHandler(name) == Some(HandleDiamondTree) <==> name == DiamondTree
  {
  }

  lemma CaseFireworks(name: string)
    ensures GiftHandler(name) == Some(HandleFireworks) <==> name == Fireworks
  {
  }

  lemma CaseDiamond(name: string)
    ensures GiftHandler(name) == Some(HandleDiamond) <==> name == Diamond
  {
  }

  /** A name selects handler `h` exactly when it equals `h`'s case label. */
  lemma Dispatch(name: string, h: Handler)
    ensures GiftHandler(name) == Some(h) <==> name == Label(h)
  {
    match h
    case HandleBravo => CaseBravo(name);
    case HandleRose => CaseRose(name);
    case HandleHealthPotion => CaseHealthPotion(name);
    case HandleTennis => CaseTennis(name);
    case HandleLoveLetter => CaseLoveLetter(name);
    case HandleAlienPeaceSign => CaseAlienPeaceSign(name);
    case HandleFootball => CaseFootball(name);
    case HandleGG => CaseGG(name);
    case HandleHiJuly => CaseHiJuly(name);
    case HandleMiniSpeaker => CaseMiniSpeaker(name);
    case HandleLightningBolt => CaseLightningBolt(name);
    case HandleCoffee => CaseCoffee(name);
    case HandleIceCreamCone => CaseIceCreamCone(name);
    case HandleWeights => CaseWeights(name);
    case HandleTikTokLogo => CaseTikTokLogo(name);
    case HandleGardenGnome => CaseGardenGnome(name);
    case HandleSquirrel => CaseSquirrel(name);
    case HandleDaisies => CaseDaisies(name);
    case HandlePinkShoes => CasePinkShoes(name);
    case HandleDuckling => CaseDuckling(name);
    case HandleChic => CaseChic(name);
    case HandlePandas => CasePandas(name);
    case HandleFingerHeart => CaseFingerHeart(name);
    case HandleMic => CaseMic(name);
    case HandleHi => CaseHi(name);
    case HandleCottonsShell => CaseCottonsShell(name);
    case HandleDanceTogether => CaseDanceTogether(name);
    case HandleGoose => CaseGoose(name);
    case HandleLoveBalloon => CaseLoveBalloon(name);
    case HandleSwan => CaseSwan(name);
    case HandleTikTokTrophy => CaseTikTokTrophy(name);
    case HandleShoes => CaseShoes(name);
    case HandleSilverGummy => CaseSilverGummy(name);
    case HandlePearl => CasePearl(name);
    case HandleTrain => CaseTrain(name);
    case HandleBadminton => CaseBadminton(name);
    case HandleTravelWithYou => CaseTravelWithYou(name);
    case HandleDinosaur => CaseDinosaur(name);
    case HandleDiscoBall => CaseDiscoBall(name);
    case HandleEmailMessage => CaseEmailMessage(name);
    case HandleGalaxy => CaseGalaxy(name);
    case HandleGerryTheGiraffe => CaseGerryTheGiraffe(name);
    case HandleGoldGummy => CaseGoldGummy(name);
    case HandleGoldMine => CaseGoldMine(name);
    case HandleMagicLamp => CaseMagicLamp(name);
    case HandleMirrorFlower => CaseMirrorFlower(name);
    case HandleSpace => CaseSpace(name);
    case HandleWatermelonLove => CaseWatermelonLove(name);
    case HandleDiamondTree => CaseDiamondTree(name);
    case HandleFireworks => CaseFireworks(name);
    case HandleDiamond => CaseDiamond(name);
  }

  /** The case labels are pairwise distinct, so every case is reachable. */
  lemma LabelInjective(h1: Handler, h2: Handler)
    ensures Label(h1) == Label(h2) ==> h1 == h2
  {
    Dispatch(Label(h1), h1);
    Dispatch(Label(h1), h2);
  }

  /** The `default` branch is taken exactly for names that are no case label. */
  lemma Unmatched(name: string)
    ensures GiftHandler(name).None? <==> forall h :: name != Label(h)
  {
    if GiftHandler(name).Some? {
      Dispatch(name, GiftHandler(name).value);
    } else {
      forall h ensures name != Label(h) {
        Dispatch(name, h);
      }
    }
  }

  /** Matching is literal: no case folding, no trimming, no apostrophe normalisation. */
  lemma MatchIsLiteral()
    ensures GiftHandler("rose") == None && GiftHandler("Rose ") == None
    ensures GiftHandler("Cotton's Shell") == None
    ensures GiftHandler(CottonsShell) == Some(HandleCottonsShell)
  {
    Unmatched("rose");
    Unmatched("Rose ");
    Unmatched("Cotton's Shell");
    CaseCottonsShell(CottonsShell);
  }
}
